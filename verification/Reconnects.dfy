/**
  Who asks for a connection to be dropped or started again, and what comes of it: no failed connection is
  forgotten, and the requests are answered in their order.
 */
module Reconnects {
  import opened Common
  import opened SentMessages
  import opened SessionSpec
  import opened ClientSpec
  import opened ClientMessages
  import opened ClientRuns
  import Introductions
  import Receptions

  /** The connection stays in its state, or is given up; no attempt to start it is made. */
  predicate Calmer(s: Session, t: Session) {
    (t.link == s.link || t.link == NotInitialized) && t.attempts == s.attempts
  }

  lemma DeliverCalms(lib: Library, net: Network, s: Session, item: ExternalItem)
    ensures Calmer(s, Deliver(lib, net, s, item))
    ensures Calmer(s, Fill(lib, s, item.status))
  {
    hide FeedAll, Feed, ConnectedAfter, IsRegistered;
  }

  lemma {:induction false} ReceivesCalms(u: Setup, k: nat, j: nat, s: Session, items: seq<ExternalItem>)
    requires j < |u.nets|
    ensures Calmer(s, Receives(u, k, j, s, items))
    decreases |items|
  {
    hide Deliver, Fill;
    if items != [] {
      var n := |items| - 1;
      ReceivesCalms(u, k, j, s, items[..n]);
      DeliverCalms(u.lib, u.nets[j], Receives(u, k, j, s, items[..n]), items[n]);
    }
  }

  lemma {:induction false} ReceiveCalms(lib: Library, net: Network, s: Session, rounds: nat)
    ensures Calmer(s, Receive(lib, net, s, rounds).session)
  {
    hide ReceiveOne;
    if rounds > 0 {
      ReceiveCalms(lib, net, s, rounds - 1);
      ReceiveOneCalms(lib, net, Receive(lib, net, s, rounds - 1).session);
    }
  }

  lemma ReceiveOneCalms(lib: Library, net: Network, s: Session)
    ensures Calmer(s, ReceiveOne(lib, net, s).session)
  {
    hide Acknowledged, InOrder, ResponseFor;
  }

  // A connect sequence.

  lemma {:induction false} WaitKeepsRequests(u: Setup, k: nat, w: Wait, arrivals: seq<seq<ExternalItem>>)
    requires Fits(u, w.client.sessions) && k < |w.client.sessions|
    ensures var after := WaitFor(u, k, w, arrivals).client;
            after.timers == w.client.timers && after.requests == w.client.requests && |after.sessions| == |w.client.sessions|
    decreases |arrivals|
  {
    hide Route, Fill, Listed, Unlisted;
    if arrivals != [] {
      WaitKeepsRequests(u, k, w, arrivals[..|arrivals| - 1]);
    }
  }

  lemma PrepareCalms(u: Setup, k: nat, c: Client, e: Surroundings, j: nat)
    requires Fits(u, c.sessions) && k < |c.sessions| && j < |c.sessions|
    ensures var prepared := Prepare(u, k, c, e).client;
            && |prepared.sessions| == |c.sessions| && Calmer(c.sessions[j], prepared.sessions[j])
            && prepared.timers == c.timers && prepared.requests == c.requests
  {
    hide Receives, ItemsFor, WaitFor, Drain, Unregistered, FeedAll;
    var start := WaitStart(u, k, c, e.devices);
    WaitKeepsRequests(u, k, start, e.waiting);
    DrainKeeps(u, k, c);
    DrainedShare(u, k, c, j);
    ReceivesCalms(u, k, j, c.sessions[j], ItemsFor(u, k, c.queue[..Leading(c.queue)], j));
    WaitDelivers(u, k, start.client, start.forced, e.waiting, j);
    ReceivesCalms(u, k, j, start.client.sessions[j], ItemsFor(u, k, WaitFor(u, k, start, e.waiting).taken, j));
  }

  lemma DrainKeeps(u: Setup, k: nat, c: Client)
    requires Fits(u, c.sessions) && k < |c.sessions|
    ensures var after := Drain(u, k, c); after.timers == c.timers && after.requests == c.requests && |after.sessions| == |c.sessions|
  {
    hide TakeAll, Leading;
  }

  lemma InitializeDecides(lib: Library, net: Network, s: Session, meanwhile: seq<seq<DeviceStatus>>, devices: seq<DeviceId>)
    requires s.link == NotInitialized
    ensures var r := Initialize(lib, net, s, meanwhile, devices);
            && r.session.link == (if r.rc == Ok then Connected else NotConnected)
            && r.session.attempts == s.attempts + 1
  {
    hide Pause, Finish, AllSteps, Wipe;
    Introductions.InitializeAttempts(lib, net, s, meanwhile, devices);
    PauseKeeps(lib, Begun(s, meanwhile));
    FinishKeeps(lib, Pause(lib, Begun(s, meanwhile)));
  }

  /**
    A connect sequence leaves its connection up, or fails and then sets a timer, unless the wait was cut short. It
    starts no other connection, and answers no request.
   */
  lemma SequenceDecides(u: Setup, k: nat, c: Client, e: Surroundings, j: nat)
    requires Fits(u, c.sessions) && k < |c.sessions| && j < |c.sessions|
    requires c.sessions[k].link == NotInitialized
    ensures var after := StartSequence(u, k, c, e);
            && |after.sessions| == |c.sessions| && after.requests == c.requests
            && (j != k ==> Calmer(c.sessions[j], after.sessions[j]))
            && (after.sessions[k].link == Connected || after.sessions[k].link == NotConnected)
            && after.sessions[k].attempts == c.sessions[k].attempts + 1
            && after.timers
               == if after.sessions[k].link == NotConnected && Prepare(u, k, c, e).forced == [] then c.timers + [k] else c.timers
  {
    hide Prepare, DrainBeside, Meanwhile, Initialize, Receives, ItemsFor, Concat;
    var prepared := Prepare(u, k, c, e).client;
    PrepareCalms(u, k, c, e, j);
    PrepareCalms(u, k, c, e, k);
    BesideTakesFront(u, k, prepared, e.connecting, j);
    var groups := DrainBeside(u, k, prepared, e.connecting).groups;
    ReceivesCalms(u, k, j, prepared.sessions[j], ItemsFor(u, k, Concat(groups), j));
    InitializeDecides(u.lib, u.nets[k], prepared.sessions[k], Meanwhile(u.modules[k], groups), e.devices);
  }

  // Runs.

  /** A timer will ask for the connection to be started again, or that has been asked for. */
  predicate Due(c: Client, k: nat) {
    k in c.timers || Asked(k, true) in c.requests
  }

  /** No connection is being started, and each one that could not be is due. */
  ghost predicate Cared(c: Client) {
    forall k: nat :: k < |c.sessions| ==> c.sessions[k].link != InSequence && (c.sessions[k].link == NotConnected ==> Due(c, k))
  }

  /** A connect sequence that the operation starts waits until all forced devices have reported. */
  ghost predicate Completes(u: Setup, c: Client, op: ClientOp)
    requires Fits(u, c.sessions)
  {
    match Launched(u, c, op)
    case Some(Launch(k, d, e)) => Prepare(u, k, d, e).forced == []
    case None => true
  }

  lemma DueAfterEvent(u: Setup, c: Client, event: Event, k: nat)
    requires Fits(u, c.sessions) && Due(c, k)
    ensures Due(Happen(u, c, event), k)
  {
    hide Receive;
    if event.TimerFires? && event.timer < |c.timers| && k in c.timers {
      var i := event.timer;
      assert c.timers == c.timers[..i] + [c.timers[i]] + c.timers[i + 1..];
    }
  }

  lemma EventCalms(u: Setup, c: Client, event: Event, k: nat)
    requires Fits(u, c.sessions) && k < |c.sessions|
    ensures var after := Happen(u, c, event); |after.sessions| == |c.sessions| && Calmer(c.sessions[k], after.sessions[k])
  {
    hide Receive, AskedBy;
    if event.Receiving? && event.connection == k {
      ReceiveCalms(u.lib, u.nets[k], c.sessions[k], event.rounds);
    }
  }

  /** Up to the connect sequence it may start, an operation makes no connection fail, and keeps those due that have failed. */
  lemma HalfwayCares(u: Setup, c: Client, op: ClientOp, k: nat)
    requires Fits(u, c.sessions) && k < |c.sessions|
    ensures var d := Halfway(u, c, op);
            && |d.sessions| == |c.sessions| && Calmer(c.sessions[k], d.sessions[k])
            && (d.sessions[k].link == NotConnected && Due(c, k) ==> Due(d, k))
  {
    hide Deliver, FeedAll, Calmer, Happen;
    match op
    case Other(event) =>
      EventCalms(u, c, event, k);
      if Due(c, k) {
        DueAfterEvent(u, c, event, k);
      }
    case SendNext(_) =>
      StaysCalm(c.sessions[k]);
      if c.queue != [] {
        DeliverCalms(u.lib, u.nets[k], c.sessions[k], c.queue[0]);
      }
    case Reconnecting(_) =>
      StaysCalm(c.sessions[k]);
      ResetCalms(u.lib, c.sessions[k]);
      assert c.requests != [] ==> forall asked :: asked in c.requests ==> asked == c.requests[0] || asked in c.requests[1..];
  }

  lemma StaysCalm(s: Session)
    ensures Calmer(s, s)
  {
  }

  lemma ResetCalms(lib: Library, s: Session)
    ensures Calmer(s, Reset(lib, s)) && Reset(lib, s).link == NotInitialized
  {
  }

  lemma LaunchStartsAnew(u: Setup, c: Client, op: ClientOp)
    requires Fits(u, c.sessions) && Launched(u, c, op).Some?
    ensures var l := Launched(u, c, op).value; l.client.sessions[l.connection].link == NotInitialized
  {
    hide Deliver, FeedAll;
    if op.SendNext? {
      var j := u.owners[ModuleOf(c.queue[0])];
      DeliverCalms(u.lib, u.nets[j], c.sessions[j], c.queue[0]);
    }
  }

  lemma ApplyCares(u: Setup, c: Client, op: ClientOp, k: nat)
    requires Fits(u, c.sessions) && k < |c.sessions| && Completes(u, c, op)
    requires c.sessions[k].link != InSequence && (c.sessions[k].link == NotConnected ==> Due(c, k))
    ensures var after := Apply(u, c, op);
            && |after.sessions| == |c.sessions| && after.sessions[k].link != InSequence
            && (after.sessions[k].link == NotConnected ==> Due(after, k))
  {
    hide Apply, Halfway, Launched, StartSequence, Prepare;
    HalfwayCares(u, c, op, k);
    ApplyInHalves(u, c, op);
    match Launched(u, c, op)
    case Some(Launch(i, d, e)) =>
      LaunchStartsAnew(u, c, op);
      SequenceDecides(u, i, d, e, k);
    case None =>
  }

  /**
    In every run whose connect sequences wait until all forced devices have reported, a connection that could not be
    started is never forgotten: a timer will ask for it to be started again, or that has been asked for.
   */
  lemma {:induction false} FailedConnectionIsDue(u: Setup, ops: seq<ClientOp>)
    requires Consistent(u)
    requires forall i :: 0 <= i < |ops| ==> Completes(u, RunClient(u, ops[..i]), ops[i])
    ensures Cared(RunClient(u, ops))
    decreases |ops|
  {
    hide Apply, Completes, Due;
    if ops != [] {
      var n := |ops| - 1;
      assert forall i :: 0 <= i < n ==> ops[..n][..i] == ops[..i];
      FailedConnectionIsDue(u, ops[..n]);
      var c := RunClient(u, ops[..n]);
      forall k: nat | k < |RunClient(u, ops).sessions|
        ensures var after := RunClient(u, ops);
                after.sessions[k].link != InSequence && (after.sessions[k].link == NotConnected ==> Due(after, k))
      {
        assert k < |c.sessions|;
        ApplyCares(u, c, ops[n], k);
      }
    }
  }

  // What asks for a connection to be dropped, and what becomes of it.

  /**
    A receiving loop that ends asks for its connection to be dropped: to be started again, unless the server has
    announced its disconnect or did not know what it acknowledged. A timer, and a status that is not answered in time,
    ask for the connection to be started again.
   */
  lemma EventAsks(u: Setup, c: Client, event: Event)
    requires Fits(u, c.sessions)
    ensures Happen(u, c, event).requests == c.requests +
              match event
              case Arrive(_) => []
              case Receiving(k, rounds) =>
                if k >= |c.sessions| || Receive(u.lib, u.nets[k], c.sessions[k], rounds).dropped == None then []
                else
                  var last := Receive(u.lib, u.nets[k], c.sessions[k], rounds).session.received - 1;
                  [Asked(k, Receptions.AsksAgain(u.nets[k], if last < 0 then 0 else last))]
              case TimerFires(i) => if i < |c.timers| then [Asked(c.timers[i], true)] else []
              case StatusTimesOut(k) => if k < |c.sessions| && c.sessions[k].pending != [] then [Asked(k, true)] else []
  {
    hide Receive, Receptions.AsksAgain;
    if event.Receiving? && event.connection < |c.sessions| {
      Receptions.LoopEndsOn(u.lib, u.nets[event.connection], c.sessions[event.connection], event.rounds);
    }
  }

  /**
    The oldest request is answered, and its connection given up: what is pending is fed to its error aggregators and
    its counters are reset. An attempt to start it again is made exactly when that was asked.
   */
  lemma RequestIsAnswered(u: Setup, c: Client, e: nat -> Surroundings, j: nat)
    requires Fits(u, c.sessions) && c.requests != [] && c.requests[0].connection < |c.sessions| && j < |c.sessions|
    ensures var k, after := c.requests[0].connection, Answer(u, c, e);
            && |after.sessions| == |c.sessions| && after.requests == c.requests[1..]
            && (j != k ==> Calmer(c.sessions[j], after.sessions[j]))
            && if c.requests[0].again then
                 && (after.sessions[k].link == Connected || after.sessions[k].link == NotConnected)
                 && after.sessions[k].attempts == c.sessions[k].attempts + 1
               else
                 && after.queue == c.queue && after.timers == c.timers
                 && after.sessions[..k] == c.sessions[..k] && after.sessions[k + 1..] == c.sessions[k + 1..]
                 && var s, t := c.sessions[k], after.sessions[k];
                    && t.link == NotInitialized && t.pending == [] && t.sendCounter == 0 && t.commandCounter == 0
                    && t.errors == FeedAll(u.lib, s.errors, s.pending)
                    && t.outbox == s.outbox && t.attempts == s.attempts && t.connected == s.connected
  {
    hide StartSequence, FeedAll, Prepare;
    var k, d := c.requests[0].connection, c.(requests := c.requests[1..]);
    var dropped := d.(sessions := d.sessions[k := Reset(u.lib, d.sessions[k])]);
    StaysCalm(c.sessions[j]);
    if c.requests[0].again {
      SequenceDecides(u, k, dropped, e(k), j);
    }
  }

  /**
    When the server announces its disconnect, the connection is dropped and left alone: the request that its receiving
    loop makes, once it is answered, makes no attempt to start the connection. This holds whatever the client has gone
    through before, and whatever happens until the request has its turn.
   */
  lemma AnnouncedDisconnectIsFinal(u: Setup, ops: seq<ClientOp>, k: nat, rounds: nat, more: seq<ClientOp>, e: nat -> Surroundings)
    requires Consistent(u) && k < |u.modules|
    requires var s := RunClient(u, ops).sessions[k];
             var r := Receive(u.lib, u.nets[k], s, rounds);
             && s.link != InSequence && r.dropped != None
             && r.session.received > 0 && u.nets[k].notified(r.session.received - 1)
    ensures var before, asked := RunClient(u, ops), RunClient(u, ops + [Other(Receiving(k, rounds))]);
            && asked.requests == before.requests + [Asked(k, false)]
            && asked.sessions[k].attempts == before.sessions[k].attempts
    ensures var turn := RunClient(u, ops + [Other(Receiving(k, rounds))] + more);
            var after := RunClient(u, ops + [Other(Receiving(k, rounds))] + more + [Reconnecting(e)]);
            turn.requests != [] && turn.requests[0] == Asked(k, false) ==>
              && after.sessions[k].link == NotInitialized && after.sessions[k].attempts == turn.sessions[k].attempts
              && after.sessions[k].outbox == turn.sessions[k].outbox
  {
    hide RunClient, Receive, Answer;
    var c, event := RunClient(u, ops), Receiving(k, rounds);
    RunClientNext(u, ops, Other(event));
    EventAsks(u, c, event);
    EventCalms(u, c, event, k);
    var turn := RunClient(u, ops + [Other(event)] + more);
    RunClientNext(u, ops + [Other(event)] + more, Reconnecting(e));
    if turn.requests != [] && turn.requests[0] == Asked(k, false) {
      RequestIsAnswered(u, turn, e, k);
    }
  }

  // The order of the requests.

  /** The request that an operation answers, and what it asks for. */
  function Answered(c: Client, op: ClientOp): seq<Asked> {
    if op.Reconnecting? && c.requests != [] then [c.requests[0]] else []
  }

  function AskedIn(u: Setup, c: Client, op: ClientOp): seq<Asked>
    requires Fits(u, c.sessions)
  {
    if op.Other? then AskedBy(u, c, op.event) else []
  }

  /** Everything that has been asked for in a run, in order. */
  function AllAsked(u: Setup, ops: seq<ClientOp>): seq<Asked>
    requires Consistent(u)
  {
    if ops == [] then []
    else
      var n := |ops| - 1;
      AllAsked(u, ops[..n]) + AskedIn(u, RunClient(u, ops[..n]), ops[n])
  }

  /** The requests that have been answered. */
  function AllAnswered(u: Setup, ops: seq<ClientOp>): seq<Asked>
    requires Consistent(u)
  {
    if ops == [] then []
    else
      var n := |ops| - 1;
      AllAnswered(u, ops[..n]) + Answered(RunClient(u, ops[..n]), ops[n])
  }

  lemma HalfwayAnswers(u: Setup, c: Client, op: ClientOp)
    requires Fits(u, c.sessions)
    ensures Answered(c, op) + Halfway(u, c, op).requests == c.requests + AskedIn(u, c, op)
  {
    hide AskedBy, Route, Reset, Receive;
    assert c.requests != [] ==> c.requests == [c.requests[0]] + c.requests[1..];
  }

  lemma ApplyAnswers(u: Setup, c: Client, op: ClientOp)
    requires Fits(u, c.sessions)
    ensures Answered(c, op) + Apply(u, c, op).requests == c.requests + AskedIn(u, c, op)
  {
    hide Apply, Launched, StartSequence, AskedIn, Answered, Halfway, Prepare;
    ApplyInHalves(u, c, op);
    HalfwayAnswers(u, c, op);
    match Launched(u, c, op)
    case Some(Launch(k, d, e)) =>
      LaunchStartsAnew(u, c, op);
      SequenceDecides(u, k, d, e, k);
    case None =>
  }

  /** The requests are answered in the order in which they were made, each of them once, and no others are. */
  lemma {:induction false} RequestsAreAnsweredInOrder(u: Setup, ops: seq<ClientOp>)
    requires Consistent(u)
    ensures AllAnswered(u, ops) + RunClient(u, ops).requests == AllAsked(u, ops)
    decreases |ops|
  {
    hide Apply, AskedIn, Answered;
    if ops != [] {
      var n := |ops| - 1;
      RequestsAreAnsweredInOrder(u, ops[..n]);
      var c, answered := RunClient(u, ops[..n]), AllAnswered(u, ops[..n]);
      ApplyAnswers(u, c, ops[n]);
      var now, more := Answered(c, ops[n]), AskedIn(u, c, ops[n]);
      assert answered + now + Apply(u, c, ops[n]).requests == answered + (now + Apply(u, c, ops[n]).requests);
      assert answered + (c.requests + more) == (answered + c.requests) + more;
    }
  }
}
