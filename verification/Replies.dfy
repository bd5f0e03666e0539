/** Reply-to correlation of the ingress broker (demos/adk-calc/internal/ingressbroker/broker.go) with the
    delivery loop of the sidecar (internal/sidecar/ingress.go): parked clients, one-slot channels and
    retries under every interleaving. */
module Replies {
  import opened Streams

  /** A post as it arrives; a status that is missing or not a number parses to 0. */
  datatype Arrival = Arrival(id: string, parsedStatus: int, contentType: string, body: Bytes)

  datatype Reply = Reply(id: string, status: int, contentType: string, body: Bytes)

  /** What HandleReply makes of a post. */
  function Received(a: Arrival): Reply {
    Reply(a.id, if a.parsedStatus == 0 then 200 else a.parsedStatus, a.contentType, a.body)
  }

  /** The reply is the post: its id, content type and body, and its status if it came with one. */
  predicate Conveys(r: Reply, a: Arrival) {
    && r.id == a.id && r.contentType == a.contentType && r.body == a.body
    && (a.parsedStatus != 0 ==> r.status == a.parsedStatus) && (a.parsedStatus == 0 ==> r.status == 200)
  }

  // ---------------------------------------------------------------- the pending map and its channels

  class Channel {
    var slot: Option<Reply>

    constructor ()
      ensures slot == None
    {
      slot := None;
    }
  }

  class Pending {
    var pending: map<string, Channel>

    constructor ()
      ensures pending == map[]
    {
      pending := map[];
    }

    method Register(id: string) returns (ch: Channel)
      modifies this
      ensures fresh(ch) && ch.slot == None && pending == old(pending)[id := ch]
    {
      ch := new Channel();
      pending := pending[id := ch];
    }

    method Unregister(id: string)
      modifies this
      ensures pending == old(pending) - {id}
    {
      pending := pending - {id};
    }

    /** The reply reaches the one channel of its id, if that is empty, and nothing else. */
    method HandleReply(a: Arrival)
      modifies if a.id in pending then {pending[a.id]} else {}
      ensures a.id in pending && old(pending[a.id].slot).Some? ==> pending[a.id].slot == old(pending[a.id].slot)
      ensures a.id in pending && old(pending[a.id].slot).None? ==>
                pending[a.id].slot == Some(Received(a)) && Conveys(pending[a.id].slot.value, a)
    {
      var status := a.parsedStatus;
      if status == 0 {
        status := 200;
      }
      var msg := Reply(a.id, status, a.contentType, a.body);
      if a.id !in pending {
        return;
      }
      var ch := pending[a.id];
      if ch.slot.None? {
        ch.slot := Some(msg);
      }
    }
  }

  // ---------------------------------------------------------------- clients, replies and timeouts together

  datatype Ending = Answered(reply: Reply) | ForwardFailed | Cancelled | TimedOut

  /** A client request: being forwarded, parked, ended but not yet unregistered, or gone. */
  datatype Phase = Forwarding | Parked | Ended(how: Ending) | Gone(how: Ending)

  datatype Client = Client(id: string, phase: Phase, slot: Option<Reply>)

  /** `carried` are replies whose handler has found the channel and not yet sent into it. */
  datatype State = State(clients: seq<Client>, pending: map<string, nat>, carried: seq<(nat, Reply)>,
                         posted: set<Arrival>)

  datatype Action =
    | Run(id: string)              // a client request with a new id is registered
    | Forwarded(c: nat, ok: bool)  // forwardToActor returns
    | Post(a: Arrival)             // HandleReply looks the channel up
    | Send(k: nat)                 // and sends into it without blocking
    | Take(c: nat)                 // the parked handler receives
    | GiveUp(c: nat, how: Ending)  // or its context ends, or its timer fires
    | Return(c: nat)               // the handler returns and unregisters

  const INIT: State := State([], map[], [], {})

  predicate Enabled(s: State, a: Action) {
    match a
    case Run(id) => forall c :: 0 <= c < |s.clients| ==> s.clients[c].id != id
    case Forwarded(c, _) => c < |s.clients| && s.clients[c].phase.Forwarding?
    case Post(_) => true
    case Send(k) => k < |s.carried| && s.carried[k].0 < |s.clients|
    case Take(c) => c < |s.clients| && s.clients[c].phase.Parked? && s.clients[c].slot.Some?
    case GiveUp(c, how) => c < |s.clients| && s.clients[c].phase.Parked? && (how.Cancelled? || how.TimedOut?)
    case Return(c) => c < |s.clients| && s.clients[c].phase.Ended?
  }

  function Set(s: State, c: nat, client: Client): State
    requires c < |s.clients|
  {
    s.(clients := s.clients[c := client])
  }

  function Step(s: State, a: Action): State
    requires Enabled(s, a)
  {
    match a
    case Run(id) => s.(clients := s.clients + [Client(id, Forwarding, None)], pending := s.pending[id := |s.clients|])
    case Forwarded(c, ok) => Set(s, c, s.clients[c].(phase := if ok then Parked else Ended(ForwardFailed)))
    case Post(a) =>
      s.(carried := if a.id in s.pending then s.carried + [(s.pending[a.id], Received(a))] else s.carried,
         posted := s.posted + {a})
    case Send(k) =>
      var (c, reply) := s.carried[k];
      var client := s.clients[c];
      s.(clients := s.clients[c := client.(slot := if client.slot.Some? then client.slot else Some(reply))],
         carried := s.carried[..k] + s.carried[k + 1..])
    case Take(c) => Set(s, c, s.clients[c].(phase := Ended(Answered(s.clients[c].slot.value)), slot := None))
    case GiveUp(c, how) => Set(s, c, s.clients[c].(phase := Ended(how)))
    case Return(c) =>
      s.(clients := s.clients[c := s.clients[c].(phase := Gone(s.clients[c].phase.how))],
         pending := s.pending - {s.clients[c].id})
  }

  predicate Present(c: Client) { !c.phase.Gone? }

  function HowOf(c: Client): Option<Ending> {
    match c.phase
    case Ended(how) => Some(how)
    case Gone(how) => Some(how)
    case _ => None
  }

  ghost predicate WasPosted(r: Reply, posted: set<Arrival>) { exists a :: a in posted && Conveys(r, a) }

  /** A reply in a client's hands carries its id and was posted. */
  ghost predicate Own(c: Client, posted: set<Arrival>) {
    && (c.slot.Some? ==> c.slot.value.id == c.id && WasPosted(c.slot.value, posted))
    && (HowOf(c).Some? && HowOf(c).value.Answered? ==>
          HowOf(c).value.reply.id == c.id && WasPosted(HowOf(c).value.reply, posted))
  }

  predicate Distinct(clients: seq<Client>) {
    forall b, c :: 0 <= b < c < |clients| ==> clients[b].id != clients[c].id
  }

  /** The map holds exactly the ids of the requests whose handler has not returned. */
  predicate Mapped(clients: seq<Client>, pending: map<string, nat>) {
    && (forall id :: id in pending ==>
          pending[id] < |clients| && clients[pending[id]].id == id && Present(clients[pending[id]]))
    && (forall c :: 0 <= c < |clients| && Present(clients[c]) ==>
          clients[c].id in pending && pending[clients[c].id] == c)
  }

  ghost predicate CarriedOk(clients: seq<Client>, carried: seq<(nat, Reply)>, posted: set<Arrival>) {
    forall k :: 0 <= k < |carried| ==>
      carried[k].0 < |clients| && carried[k].1.id == clients[carried[k].0].id && WasPosted(carried[k].1, posted)
  }

  ghost predicate Correlated(s: State) {
    && Distinct(s.clients) && Mapped(s.clients, s.pending) && CarriedOk(s.clients, s.carried, s.posted)
    && (forall c :: 0 <= c < |s.clients| ==> Own(s.clients[c], s.posted))
  }

  /** Changing one client, but neither its id nor its presence. */
  lemma SetCorrelated(s: State, c: nat, client: Client)
    requires Correlated(s) && c < |s.clients|
    requires client.id == s.clients[c].id && Present(client) == Present(s.clients[c]) && Own(client, s.posted)
    ensures Correlated(Set(s, c, client))
  {
    hide Own, HowOf, Present;
    var clients := s.clients[c := client];
    assert Mapped(clients, s.pending);
  }

  lemma RunCorrelated(s: State, id: string)
    requires Correlated(s) && Enabled(s, Run(id))
    ensures Correlated(Step(s, Run(id)))
  {
  }

  lemma PostedStays(r: Reply, posted: set<Arrival>, a: Arrival)
    ensures WasPosted(r, posted) ==> WasPosted(r, posted + {a})
    ensures WasPosted(Received(a), posted + {a})
  {
    assert a in posted + {a} && Conveys(Received(a), a);
  }

  lemma PostCorrelated(s: State, a: Arrival)
    requires Correlated(s)
    ensures Correlated(Step(s, Post(a)))
  {
    hide WasPosted;
    var s' := Step(s, Post(a));
    forall k | 0 <= k < |s'.carried| ensures WasPosted(s'.carried[k].1, s'.posted) {
      PostedStays(s'.carried[k].1, s.posted, a);
    }
    forall c | 0 <= c < |s.clients| ensures Own(s.clients[c], s'.posted) {
      var client := s.clients[c];
      if client.slot.Some? { PostedStays(client.slot.value, s.posted, a); }
      if HowOf(client).Some? && HowOf(client).value.Answered? { PostedStays(HowOf(client).value.reply, s.posted, a); }
    }
  }

  lemma SendCorrelated(s: State, k: nat)
    requires Correlated(s) && Enabled(s, Send(k))
    ensures Correlated(Step(s, Send(k)))
  {
    var (c, reply) := s.carried[k];
    var client := s.clients[c];
    SetCorrelated(s, c, client.(slot := if client.slot.Some? then client.slot else Some(reply)));
  }

  lemma ReturnCorrelated(s: State, c: nat)
    requires Correlated(s) && Enabled(s, Return(c))
    ensures Correlated(Step(s, Return(c)))
  {
    var s' := Step(s, Return(c));
    assert Mapped(s'.clients, s'.pending);
  }

  lemma StepCorrelated(s: State, a: Action)
    requires Correlated(s) && Enabled(s, a)
    ensures Correlated(Step(s, a))
  {
    hide Correlated;
    match a
    case Run(id) => RunCorrelated(s, id);
    case Post(a) => PostCorrelated(s, a);
    case Send(k) => SendCorrelated(s, k);
    case Return(c) => ReturnCorrelated(s, c);
    case Forwarded(c, ok) => EndCorrelated(s, c, if ok then Parked else Ended(ForwardFailed));
    case Take(c) => TakeCorrelated(s, c);
    case GiveUp(c, how) => EndCorrelated(s, c, Ended(how));
  }

  lemma EndCorrelated(s: State, c: nat, phase: Phase)
    requires Correlated(s) && c < |s.clients| && (s.clients[c].phase.Forwarding? || s.clients[c].phase.Parked?)
    requires phase.Parked? || (phase.Ended? && !phase.how.Answered?)
    ensures Correlated(Set(s, c, s.clients[c].(phase := phase)))
  {
    SetCorrelated(s, c, s.clients[c].(phase := phase));
  }

  lemma TakeCorrelated(s: State, c: nat)
    requires Correlated(s) && Enabled(s, Take(c))
    ensures Correlated(Step(s, Take(c)))
  {
    SetCorrelated(s, c, s.clients[c].(phase := Ended(Answered(s.clients[c].slot.value)), slot := None));
  }

  // ---------------------------------------------------------------- every run

  ghost predicate Legal(s: State, run: seq<Action>)
    decreases |run|
  {
    run == [] || (Enabled(s, run[0]) && Legal(Step(s, run[0]), run[1..]))
  }

  ghost function Exec(s: State, run: seq<Action>): State
    requires Legal(s, run)
    decreases |run|
  {
    if run == [] then s else Exec(Step(s, run[0]), run[1..])
  }

  /** An ending is final: a client that has one keeps it. */
  lemma {:induction false} EndingStays(s: State, run: seq<Action>, c: nat)
    requires Legal(s, run) && c < |s.clients| && HowOf(s.clients[c]).Some?
    ensures c < |Exec(s, run).clients| && HowOf(Exec(s, run).clients[c]) == HowOf(s.clients[c])
    ensures Exec(s, run).clients[c].id == s.clients[c].id
    decreases |run|
  {
    if run != [] { EndingStays(Step(s, run[0]), run[1..], c); }
  }

  lemma {:induction false} RunCorrelates(s: State, run: seq<Action>)
    requires Correlated(s) && Legal(s, run)
    ensures Correlated(Exec(s, run))
    decreases |run|
  {
    hide Correlated, Step, Enabled;
    if run != [] {
      StepCorrelated(s, run[0]);
      RunCorrelates(Step(s, run[0]), run[1..]);
    }
  }

  /** Over every interleaving of forwards, duplicate and late replies, timeouts and cancellations, the
      pending map holds exactly the ids of the requests whose handler has not returned, and a client that
      was answered got the status, content type and body of a post under its own id. */
  lemma RepliesReachTheirClients(run: seq<Action>)
    requires Legal(INIT, run)
    ensures var s := Exec(INIT, run);
            && Mapped(s.clients, s.pending)
            && (forall c :: 0 <= c < |s.clients| && HowOf(s.clients[c]).Some? && HowOf(s.clients[c]).value.Answered? ==>
                  var reply := HowOf(s.clients[c]).value.reply;
                  reply.id == s.clients[c].id && exists a :: a in s.posted && Conveys(reply, a))
  {
    RunCorrelates(INIT, run);
  }

  lemma ThreeSteps(s: State, a: Action, b: Action, c: Action)
    requires Enabled(s, a) && Enabled(Step(s, a), b) && Enabled(Step(Step(s, a), b), c)
    ensures Legal(s, [a, b, c]) && Exec(s, [a, b, c]) == Step(Step(Step(s, a), b), c)
  {
    hide Step, Enabled;
    var s1, s2, s3 := Step(s, a), Step(Step(s, a), b), Step(Step(Step(s, a), b), c);
    assert [a, b, c][1..] == [b, c] && [b, c][1..] == [c] && [c][1..] == [];
    assert Legal(s3, []) && Exec(s3, []) == s3;
    assert Legal(s2, [c]) && Exec(s2, [c]) == s3;
    assert Legal(s1, [b, c]) && Exec(s1, [b, c]) == s3;
  }

  lemma PostIsTaken(s: State, c: nat, a: Arrival)
    requires Correlated(s)
    requires c < |s.clients| && s.clients[c].phase.Parked? && s.clients[c].slot.None? && a.id == s.clients[c].id
    ensures var s1, k := Step(s, Post(a)), |s.carried|;
            && Enabled(s1, Send(k))
            && Step(s1, Send(k)).clients == s.clients[c := s.clients[c].(slot := Some(Received(a)))]
  {
    hide WasPosted, Own;
    var s1 := Step(s, Post(a));
    assert s.pending[a.id] == c;
    assert s1.carried[|s.carried|] == (c, Received(a));
  }

  /** A post for a parked client that has no reply yet answers it: it is taken into the channel and received. */
  lemma PostAnswers(before: seq<Action>, c: nat, a: Arrival)
    requires Legal(INIT, before)
    requires var s := Exec(INIT, before);
             c < |s.clients| && s.clients[c].phase.Parked? && s.clients[c].slot.None? && a.id == s.clients[c].id
    ensures var s := Exec(INIT, before);
            var run := [Post(a), Send(|s.carried|), Take(c)];
            && Legal(s, run)
            && var s' := Exec(s, run);
               && c < |s'.clients| && s'.clients[c].phase.Ended? && s'.clients[c].phase.how.Answered?
               && Conveys(s'.clients[c].phase.how.reply, a)
  {
    hide Correlated, Legal, Exec;
    StartCorrelated();
    RunCorrelates(INIT, before);
    var s := Exec(INIT, before);
    PostIsTaken(s, c, a);
    ThreeSteps(s, Post(a), Send(|s.carried|), Take(c));
  }

  lemma StartCorrelated()
    ensures Correlated(INIT)
  {
  }

  /** The action that gives a client this ending. */
  predicate Causes(a: Action, c: nat, how: Ending) {
    match how
    case Answered(_) => a == Take(c)
    case ForwardFailed => a == Forwarded(c, false)
    case _ => a == GiveUp(c, how)
  }

  /** A client ends as it does because of what happened to it: a reply was received, its forward failed, its
      context ended or its timer fired. */
  lemma {:induction false} EndingHasCause(s: State, run: seq<Action>, c: nat) returns (k: nat)
    requires Legal(s, run) && c < |Exec(s, run).clients| && HowOf(Exec(s, run).clients[c]).Some?
    requires c < |s.clients| ==> HowOf(s.clients[c]).None?
    ensures k < |run| && Causes(run[k], c, HowOf(Exec(s, run).clients[c]).value)
    decreases |run|
  {
    assert run != [];
    var s1 := Step(s, run[0]);
    if c < |s1.clients| && HowOf(s1.clients[c]).Some? {
      EndingStays(s1, run[1..], c);
      k := 0;
    } else {
      k := EndingHasCause(s1, run[1..], c);
      k := k + 1;
    }
  }

  // ---------------------------------------------------------------- the two retry loops

  datatype Outcome = NetworkError | Status(code: nat)

  datatype Forward = Accepted | Refused(code: nat) | Exhausted | CtxDone

  /** The response settles the matter: accepted, or an error that retrying cannot mend. */
  predicate Settles(o: Outcome) { o.Status? && o.code < 500 }

  /** forwardToActor: at most five attempts, the first that settles it decides, and the waits in between
      grow by half a second each; the wait after the fifth failure is not left out. */
  method ForwardToActor(outcome: nat -> Outcome, cancelled: nat -> bool)
      returns (result: Forward, attempts: nat, waitedMillis: nat)
    ensures 1 <= attempts <= 5
    ensures forall k :: 1 <= k < attempts ==> !Settles(outcome(k)) && !cancelled(k)
    ensures result.Accepted? <==> outcome(attempts).Status? && outcome(attempts).code < 300
    ensures result.Refused? <==> outcome(attempts).Status? && 300 <= outcome(attempts).code < 500
    ensures result.Refused? ==> result.code == outcome(attempts).code
    ensures result.CtxDone? <==> !Settles(outcome(attempts)) && cancelled(attempts)
    ensures result.Exhausted? ==> attempts == 5 && waitedMillis == 7500
    ensures !result.Exhausted? ==> waitedMillis == 250 * attempts * (attempts - 1)
  {
    waitedMillis := 0;
    attempts := 1;
    while attempts <= 5
      invariant 1 <= attempts <= 6
      invariant forall k :: 1 <= k < attempts ==> !Settles(outcome(k)) && !cancelled(k)
      invariant waitedMillis == 250 * attempts * (attempts - 1)
      decreases 6 - attempts
    {
      var o := outcome(attempts);
      if o.Status? {
        if o.code < 300 {
          return Accepted, attempts, waitedMillis;
        }
        if o.code < 500 {
          return Refused(o.code), attempts, waitedMillis;
        }
      }
      if cancelled(attempts) {
        return CtxDone, attempts, waitedMillis;
      }
      waitedMillis := waitedMillis + attempts * 500;
      attempts := attempts + 1;
    }
    return Exhausted, 5, waitedMillis;
  }

  /** The sidecar's deliver: at most five posts, and it stops at the first that gets any response at all,
      whatever its status; the waits in between grow by 300 ms each, one after the fifth failure included. */
  method Deliver(responded: nat -> bool) returns (ok: bool, attempts: nat, waitedMillis: nat)
    ensures 1 <= attempts <= 5
    ensures forall k :: 1 <= k < attempts ==> !responded(k)
    ensures ok <==> responded(attempts)
    ensures ok ==> waitedMillis == 150 * attempts * (attempts - 1)
    ensures !ok ==> attempts == 5 && waitedMillis == 4500
  {
    attempts, waitedMillis := 1, 0;
    while attempts <= 5
      invariant 1 <= attempts <= 6
      invariant forall k :: 1 <= k < attempts ==> !responded(k)
      invariant waitedMillis == 150 * attempts * (attempts - 1)
      decreases 6 - attempts
    {
      if responded(attempts) {
        return true, attempts, waitedMillis;
      }
      waitedMillis := waitedMillis + attempts * 300;
      attempts := attempts + 1;
    }
    return false, 5, waitedMillis;
  }
}
