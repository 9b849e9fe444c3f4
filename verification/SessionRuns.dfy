/** Every run of the operations on one external connection, with a ledger of what went in and where it is. */
module SessionRuns {
  import opened Common
  import opened SentMessages
  import opened SessionSpec
  import Err = ErrorAggregator

  datatype Op =
    | Send(status: DeviceStatus, kind: Kind, error: Buffer)
    | Absorb(status: DeviceStatus)
    | FlushPending
    | Drop
    | Acknowledgement(counter: uint32)
    | CommandArrival(session: string, counter: uint32, command: DeviceCommand)
    | ForgetErrors
    | Greeting(devices: seq<DeviceId>)
    | Opening
    | Listening
    | Schedule(ahead: seq<seq<DeviceStatus>>)
    | Relink(link: Link)

  function Step(lib: Library, net: Network, s: Session, op: Op): Session {
    match op
    case Send(status, kind, error) => SendStatus(lib, net, s, status, kind, error)
    case Absorb(status) => Fill(lib, s, status)
    case FlushPending => Flush(lib, s)
    case Drop => Reset(lib, s)
    case Acknowledgement(counter) => Acknowledge(s, counter)
    case CommandArrival(session, counter, command) => HandleCommand(lib, s, session, counter, command)
    case ForgetErrors => ClearErrors(s)
    case Greeting(devices) => Greet(net, s, devices)
    case Opening => s.(attempts := s.attempts + 1)
    case Listening => s.(received := s.received + 1)
    case Schedule(ahead) => s.(ahead := ahead)
    case Relink(link) => s.(link := link)
  }

  /** What has gone into the error aggregators: a status on its own, one that was never acknowledged, or a wipe. */
  datatype Fed = Given(status: DeviceStatus) | Undelivered(sent: Sent) | Wiped

  datatype Answered = Answered(counter: uint32, command: DeviceCommand, connected: bool)

  /**
    The statuses taken for sending and the acknowledged ones; what was fed to the error aggregators; how many
    statuses were sent and which command counters were accepted since the counters were reset; and the
    commands for known modules.
   */
  datatype Ledger = Ledger(
    taken: seq<Sent>,
    acked: seq<Sent>,
    fed: seq<Fed>,
    sends: nat,
    chain: seq<uint32>,
    answered: seq<Answered>)

  function Marked(pending: seq<Sent>): seq<Fed> {
    seq(|pending|, i requires 0 <= i < |pending| => Undelivered(pending[i]))
  }

  function Enter(lib: Library, net: Network, s: Session, l: Ledger, op: Op): Ledger {
    match op
    case Send(status, kind, error) =>
      if !Supports(s, status.device) then l
      else
        var sent := NewStatus(s, status, kind, error);
        var m := l.(taken := l.taken + [sent],
                    fed := if IsRegistered(s, status.device) then l.fed else l.fed + [Given(status)],
                    sends := l.sends + 1);
        if net.sends(|s.outbox|) then m
        else m.(fed := m.fed + Marked(s.pending + [sent]), sends := 0, chain := [])
    case Absorb(status) =>
      if Supports(s, status.device) then l.(fed := l.fed + Marked(s.pending) + [Given(status)]) else l
    case FlushPending => l.(fed := l.fed + Marked(s.pending))
    case Drop => l.(fed := l.fed + Marked(s.pending), sends := 0, chain := [])
    case Acknowledgement(counter) =>
      if Awaited(s.pending, counter) then l.(acked := l.acked + [s.pending[Position(s.pending, counter)]]) else l
    case CommandArrival(session, counter, command) =>
      if !InOrder(s, session, counter) then l
      else if !Supports(s, command.device) then l.(chain := l.chain + [counter])
      else
        l.(chain := l.chain + [counter],
           answered := l.answered + [Answered(counter, command, Listed(s.connected, command.device))])
    case ForgetErrors => l.(fed := l.fed + [Wiped])
    case _ => l
  }

  datatype History = History(session: Session, ledger: Ledger)

  /** A connection as it is set up for the modules of its endpoint. */
  function Start(modules: set<int>): History {
    History(
      Session.Session(NotInitialized, 0, 0, "", map number | number in modules :: map[], [], [], [], [], 0, 0, 0, []),
      Ledger([], [], [], 0, [], []))
  }

  function After(lib: Library, net: Network, h: History, op: Op): History {
    History(Step(lib, net, h.session, op), Enter(lib, net, h.session, h.ledger, op))
  }

  function Run(lib: Library, net: Network, modules: set<int>, ops: seq<Op>): History {
    if ops == [] then Start(modules)
    else After(lib, net, Run(lib, net, modules, ops[..|ops| - 1]), ops[|ops| - 1])
  }

  // Conservation.

  function Lost(fed: seq<Fed>): seq<Sent> {
    if fed == [] then []
    else
      var entry := fed[|fed| - 1];
      Lost(fed[..|fed| - 1]) + if entry.Undelivered? then [entry.sent] else []
  }

  predicate Subsequence(a: seq<Sent>, b: seq<Sent>) {
    a == [] || (b != [] && (
        (a[|a| - 1] == b[|b| - 1] && Subsequence(a[..|a| - 1], b[..|b| - 1]))
        || Subsequence(a, b[..|b| - 1])))
  }

  lemma {:induction false} LostMarked(fed: seq<Fed>, pending: seq<Sent>)
    ensures Lost(fed + Marked(pending)) == Lost(fed) + pending
    decreases |pending|
  {
    var all := fed + Marked(pending);
    if pending == [] {
      assert all == fed;
    } else {
      var init := pending[..|pending| - 1];
      LostMarked(fed, init);
      assert all[..|all| - 1] == fed + Marked(init);
      assert Lost(fed) + init + [pending[|init|]] == Lost(fed) + (init + [pending[|init|]]);
    }
  }

  lemma LostNext(fed: seq<Fed>, entry: Fed)
    requires !entry.Undelivered?
    ensures Lost(fed + [entry]) == Lost(fed)
  {
    assert (fed + [entry])[..|fed|] == fed;
  }

  lemma SubsequenceNext(a: seq<Sent>, b: seq<Sent>, x: Sent)
    requires Subsequence(a, b)
    ensures Subsequence(a + [x], b + [x])
  {
    assert (a + [x])[..|a|] == a && (b + [x])[..|b|] == b;
  }

  lemma {:induction false} SubsequenceWithout(a: seq<Sent>, x: Sent, c: seq<Sent>, b: seq<Sent>)
    requires Subsequence(a + [x] + c, b)
    ensures Subsequence(a + c, b)
    decreases |b|
  {
    var all, init := a + [x] + c, b[..|b| - 1];
    if Subsequence(all, init) {
      SubsequenceWithout(a, x, c, init);
    } else if c == [] {
      assert all[..|all| - 1] == a && a + c == a;
    } else {
      var front := c[..|c| - 1];
      assert all[..|all| - 1] == a + [x] + front;
      SubsequenceWithout(a, x, front, init);
      assert (a + c)[..|a + c| - 1] == a + front;
    }
  }

  /** Every status taken is in one place; what was lost and what is pending are still in send order. */
  ghost predicate Balanced(taken: seq<Sent>, acked: seq<Sent>, pending: seq<Sent>, lost: seq<Sent>) {
    && multiset(taken) == multiset(acked) + multiset(pending) + multiset(lost)
    && Subsequence(lost + pending, taken)
  }

  lemma BalancedTake(taken: seq<Sent>, acked: seq<Sent>, pending: seq<Sent>, lost: seq<Sent>, x: Sent)
    requires Balanced(taken, acked, pending, lost)
    ensures Balanced(taken + [x], acked, pending + [x], lost)
  {
    hide Subsequence;
    SubsequenceNext(lost + pending, taken, x);
    assert lost + pending + [x] == lost + (pending + [x]);
  }

  lemma BalancedLose(taken: seq<Sent>, acked: seq<Sent>, pending: seq<Sent>, lost: seq<Sent>)
    requires Balanced(taken, acked, pending, lost)
    ensures Balanced(taken, acked, [], lost + pending)
  {
    hide Subsequence;
    assert lost + pending + [] == lost + pending;
  }

  lemma BalancedAcknowledge(taken: seq<Sent>, acked: seq<Sent>, pending: seq<Sent>, lost: seq<Sent>, k: nat)
    requires Balanced(taken, acked, pending, lost) && k < |pending|
    ensures Balanced(taken, acked + [pending[k]], pending[..k] + pending[k + 1..], lost)
  {
    hide Subsequence;
    var before, x, behind := pending[..k], pending[k], pending[k + 1..];
    assert pending == before + [x] + behind;
    assert lost + pending == (lost + before) + [x] + behind;
    SubsequenceWithout(lost + before, x, behind, taken);
    assert lost + (before + behind) == (lost + before) + behind;
  }

  /** Every status taken is acknowledged, pending or fed to the error aggregators; the latter two in send order. */
  ghost predicate Conserved(h: History) {
    Balanced(h.ledger.taken, h.ledger.acked, h.session.pending, Lost(h.ledger.fed))
  }

  lemma ConservedSend(lib: Library, net: Network, h: History, status: DeviceStatus, kind: Kind, error: Buffer)
    requires Conserved(h)
    ensures Conserved(After(lib, net, h, Send(status, kind, error)))
  {
    hide Lost, Balanced, Marked, FeedAll, Feed, ReportedAs, ConnectedAfter, IsRegistered;
    var s, l := h.session, h.ledger;
    var sent := NewStatus(s, status, kind, error);
    LostNext(l.fed, Given(status));
    LostMarked(l.fed, s.pending + [sent]);
    LostMarked(l.fed + [Given(status)], s.pending + [sent]);
    BalancedTake(l.taken, l.acked, s.pending, Lost(l.fed), sent);
    BalancedLose(l.taken + [sent], l.acked, s.pending + [sent], Lost(l.fed));
  }

  lemma ConservedAcknowledgement(h: History, lib: Library, net: Network, counter: uint32)
    requires Conserved(h)
    ensures Conserved(After(lib, net, h, Acknowledgement(counter)))
  {
    hide Lost, Balanced, Acknowledged, Awaited;
    var s, l := h.session, h.ledger;
    AcknowledgementTakesOne(s.pending, counter);
    if Awaited(s.pending, counter) {
      BalancedAcknowledge(l.taken, l.acked, s.pending, Lost(l.fed), Position(s.pending, counter));
    }
  }

  lemma ConservedStep(lib: Library, net: Network, h: History, op: Op)
    requires Conserved(h)
    ensures Conserved(After(lib, net, h, op))
  {
    hide Lost, Balanced, Marked, FeedAll, Feed, InOrder, SendStatus, Acknowledge;
    var s, l := h.session, h.ledger;
    LostMarked(l.fed, s.pending);
    BalancedLose(l.taken, l.acked, s.pending, Lost(l.fed));
    match op
    case Send(status, kind, error) =>
      ConservedSend(lib, net, h, status, kind, error);
    case Acknowledgement(counter) =>
      ConservedAcknowledgement(h, lib, net, counter);
    case ForgetErrors =>
      LostNext(l.fed, Wiped);
    case Absorb(status) =>
      LostNext(l.fed + Marked(s.pending), Given(status));
    case _ =>
  }

  // What the error aggregators hold.

  /** An entry as the error aggregator of one module sees it. */
  function SeenBy(entry: Fed, number: int): seq<Err.Op> {
    match entry
    case Given(status) => AddedTo(status, number)
    case Undelivered(sent) => AddedTo(sent.status, number)
    case Wiped => [Err.Cleared]
  }

  function AddedTo(status: DeviceStatus, number: int): seq<Err.Op> {
    if status.device.identity.moduleNumber == number then [Err.Added(status.device, status.data)] else []
  }

  function ErrorOps(fed: seq<Fed>, number: int): seq<Err.Op> {
    if fed == [] then []
    else ErrorOps(fed[..|fed| - 1], number) + SeenBy(fed[|fed| - 1], number)
  }

  ghost predicate Explained(lib: Library, errors: map<int, Err.Errors>, fed: seq<Fed>) {
    forall number :: number in errors ==> errors[number] == Err.Run(lib(number), ErrorOps(fed, number))
  }

  lemma ErrorOpsNext(m: Module, fed: seq<Fed>, entry: Fed, number: int)
    ensures ErrorOps(fed + [entry], number) == ErrorOps(fed, number) + SeenBy(entry, number)
    ensures SeenBy(entry, number) == [] ==> Err.Run(m, ErrorOps(fed + [entry], number)) == Err.Run(m, ErrorOps(fed, number))
    ensures forall op :: SeenBy(entry, number) == [op] ==>
              Err.Run(m, ErrorOps(fed + [entry], number)) == Err.Apply(m, Err.Run(m, ErrorOps(fed, number)), op)
  {
    hide SeenBy, Err.Apply;
    assert (fed + [entry])[..|fed|] == fed;
    var ops := ErrorOps(fed, number);
    forall op | SeenBy(entry, number) == [op]
      ensures Err.Run(m, ops + [op]) == Err.Apply(m, Err.Run(m, ops), op)
    {
      assert (ops + [op])[..|ops|] == ops;
    }
    assert ops + [] == ops;
  }

  lemma ExplainedFeed(lib: Library, errors: map<int, Err.Errors>, fed: seq<Fed>, entry: Fed, status: DeviceStatus)
    requires Explained(lib, errors, fed)
    requires entry == Given(status) || (entry.Undelivered? && entry.sent.status == status)
    ensures Explained(lib, Feed(lib, errors, status), fed + [entry])
    ensures Feed(lib, errors, status).Keys == errors.Keys
  {
    hide Err.Run, Err.AddError, ErrorOps;
    forall number | number in errors
      ensures Feed(lib, errors, status)[number] == Err.Run(lib(number), ErrorOps(fed + [entry], number))
    {
      ErrorOpsNext(lib(number), fed, entry, number);
      if status.device.identity.moduleNumber == number {
        assert SeenBy(entry, number) == [Err.Added(status.device, status.data)];
      }
    }
  }

  /** A flush feeds every pending status, in order. */
  lemma {:induction false} ExplainedFlush(lib: Library, errors: map<int, Err.Errors>, fed: seq<Fed>, pending: seq<Sent>)
    requires Explained(lib, errors, fed)
    ensures Explained(lib, FeedAll(lib, errors, pending), fed + Marked(pending))
    ensures FeedAll(lib, errors, pending).Keys == errors.Keys
    decreases |pending|
  {
    hide Explained, Feed;
    if pending == [] {
      assert fed + Marked(pending) == fed;
    } else {
      var n := |pending| - 1;
      var init := pending[..n];
      ExplainedFlush(lib, errors, fed, init);
      ExplainedFeed(lib, FeedAll(lib, errors, init), fed + Marked(init), Undelivered(pending[n]), pending[n].status);
      assert fed + Marked(init) + [Undelivered(pending[n])] == fed + Marked(pending);
    }
  }

  lemma ExplainedWipe(lib: Library, s: Session, fed: seq<Fed>)
    requires Explained(lib, s.errors, fed)
    ensures Explained(lib, ClearErrors(s).errors, fed + [Wiped])
    ensures ClearErrors(s).errors.Keys == s.errors.Keys
  {
    hide Err.Run, Err.ClearAll, ErrorOps;
    forall number | number in s.errors
      ensures ClearErrors(s).errors[number] == Err.Run(lib(number), ErrorOps(fed + [Wiped], number))
    {
      ErrorOpsNext(lib(number), fed, Wiped, number);
      assert SeenBy(Wiped, number) == [Err.Cleared];
    }
  }

  /**
    The error aggregators are those of the modules of the endpoint, they hold what the ledger says was fed to
    them, and whatever is pending belongs to one of them.
   */
  ghost predicate Accounted(lib: Library, modules: set<int>, h: History) {
    && h.session.errors.Keys == modules
    && Explained(lib, h.session.errors, h.ledger.fed)
    && forall sent :: sent in h.session.pending ==> Supports(h.session, sent.status.device)
  }

  lemma AccountedSend(lib: Library, net: Network, modules: set<int>, h: History, status: DeviceStatus,
                      kind: Kind, error: Buffer)
    requires Accounted(lib, modules, h)
    ensures Accounted(lib, modules, After(lib, net, h, Send(status, kind, error)))
  {
    hide Explained, Feed, FeedAll, Marked, ReportedAs, ConnectedAfter, IsRegistered;
    var s, l := h.session, h.ledger;
    var sent := NewStatus(s, status, kind, error);
    ExplainedFeed(lib, s.errors, l.fed, Given(status), status);
    var registered := IsRegistered(s, status.device);
    var errors, fed := if registered then s.errors else Feed(lib, s.errors, status), if registered then l.fed else l.fed + [Given(status)];
    ExplainedFlush(lib, errors, fed, s.pending + [sent]);
  }

  lemma AccountedStep(lib: Library, net: Network, modules: set<int>, h: History, op: Op)
    requires Accounted(lib, modules, h)
    ensures Accounted(lib, modules, After(lib, net, h, op))
  {
    hide Explained, Feed, FeedAll, Marked, SendStatus, Acknowledged, Awaited, InOrder, Err.ClearAll;
    var s, l := h.session, h.ledger;
    match op
    case Send(status, kind, error) =>
      AccountedSend(lib, net, modules, h, status, kind, error);
    case Acknowledgement(counter) =>
      AcknowledgementTakesOne(s.pending, counter);
    case ForgetErrors =>
      ExplainedWipe(lib, s, l.fed);
    case Absorb(status) =>
      ExplainedFlush(lib, s.errors, l.fed, s.pending);
      ExplainedFeed(lib, FeedAll(lib, s.errors, s.pending), l.fed + Marked(s.pending), Given(status), status);
    case _ =>
      ExplainedFlush(lib, s.errors, l.fed, s.pending);
  }

  // Counters of the pending statuses.

  ghost predicate Numbered(h: History) {
    && h.session.sendCounter == h.ledger.sends % TWO_32
    && (h.ledger.sends < TWO_32 ==> Ascending(h.session.pending, h.ledger.sends))
  }

  ghost predicate Ascending(pending: seq<Sent>, sends: nat) {
    && (forall i :: 0 <= i < |pending| ==> 1 <= pending[i].counter <= sends)
    && (forall i, j :: 0 <= i < j < |pending| ==> pending[i].counter < pending[j].counter)
  }

  lemma AscendingWithout(pending: seq<Sent>, sends: nat, k: nat)
    requires Ascending(pending, sends) && k < |pending|
    ensures Ascending(pending[..k] + pending[k + 1..], sends)
  {
  }

  lemma AscendingNext(pending: seq<Sent>, sends: nat, sent: Sent)
    requires Ascending(pending, sends) && sent.counter == sends + 1
    ensures Ascending(pending + [sent], sends + 1)
  {
  }

  lemma NextCounter(sends: nat)
    ensures Next(sends % TWO_32) == (sends + 1) % TWO_32
  {
  }

  lemma NumberedStep(lib: Library, net: Network, h: History, op: Op)
    requires Numbered(h)
    ensures Numbered(After(lib, net, h, op))
  {
    hide FeedAll, Feed, Marked, Acknowledged, Awaited, InOrder, Err.ClearAll, ReportedAs, ConnectedAfter, IsRegistered, Ascending, Next;
    var s, l := h.session, h.ledger;
    NothingAscends();
    match op
    case Acknowledgement(counter) =>
      AcknowledgementTakesOne(s.pending, counter);
      if Awaited(s.pending, counter) && l.sends < TWO_32 {
        AscendingWithout(s.pending, l.sends, Position(s.pending, counter));
      }
    case Send(status, kind, error) =>
      NextCounter(l.sends);
      if l.sends + 1 < TWO_32 {
        AscendingNext(s.pending, l.sends, NewStatus(s, status, kind, error));
      }
    case _ =>
  }

  lemma NothingAscends()
    ensures forall sends: nat :: Ascending([], sends)
  {
  }

  // Commands.

  /** A counter accepted after a non-zero one is its successor. */
  ghost predicate Linked(chain: seq<uint32>) {
    forall i :: 0 <= i < |chain| - 1 && chain[i] != 0 ==> chain[i + 1] == Next(chain[i])
  }

  function Responses(outbox: seq<ClientMessage>): seq<ClientMessage> {
    if outbox == [] then []
    else
      var message := outbox[|outbox| - 1];
      Responses(outbox[..|outbox| - 1]) + if message.CommandResponse? then [message] else []
  }

  function SentIn(outbox: seq<ClientMessage>): seq<Sent> {
    if outbox == [] then []
    else
      var message := outbox[|outbox| - 1];
      SentIn(outbox[..|outbox| - 1]) + if message.Status? then [message.sent] else []
  }

  /** The commands that went to connected devices. */
  function Delivered(answered: seq<Answered>): seq<DeviceCommand> {
    if answered == [] then []
    else
      var a := answered[|answered| - 1];
      Delivered(answered[..|answered| - 1]) + if a.connected then [a.command] else []
  }

  ghost predicate Matches(responses: seq<ClientMessage>, answered: seq<Answered>) {
    && |responses| == |answered|
    && forall i :: 0 <= i < |answered| ==>
         && responses[i].CommandResponse?
         && responses[i].counter == answered[i].counter
         && (responses[i].responseType == ResponseOk <==> answered[i].connected)
  }

  /**
    The accepted counters since the last reset are linked. Every accepted command of a known module has one
    response with its counter, in order, and it is positive for exactly the commands that were passed on.
   */
  ghost predicate Obeyed(h: History) {
    && Linked(h.ledger.chain)
    && h.session.commandCounter == (if h.ledger.chain == [] then 0 else h.ledger.chain[|h.ledger.chain| - 1])
    && Matches(Responses(h.session.outbox), h.ledger.answered)
    && h.session.commands == Delivered(h.ledger.answered)
  }

  /** The statuses taken are those handed to the channel. */
  ghost predicate Handed(h: History) {
    SentIn(h.session.outbox) == h.ledger.taken
  }

  lemma SentInNext(outbox: seq<ClientMessage>, message: ClientMessage)
    ensures SentIn(outbox + [message]) == SentIn(outbox) + if message.Status? then [message.sent] else []
  {
    assert (outbox + [message])[..|outbox|] == outbox;
  }

  lemma HandedStep(lib: Library, net: Network, h: History, op: Op)
    requires Handed(h)
    ensures Handed(After(lib, net, h, op))
  {
    hide FeedAll, Feed, Marked, Acknowledged, Awaited, InOrder, Err.ClearAll, ReportedAs, ConnectedAfter, IsRegistered, Listed, SentIn;
    var s := h.session;
    match op
    case Send(status, kind, error) =>
      SentInNext(s.outbox, Status(NewStatus(s, status, kind, error)));
    case Greeting(devices) =>
      SentInNext(s.outbox, Connect(net.sessions(s.generated), devices));
    case CommandArrival(session, counter, command) =>
      SentInNext(s.outbox, CommandResponse(s.id, ResponseFor(lib, s, command.device), counter));
    case _ =>
  }

  lemma ResponsesNext(outbox: seq<ClientMessage>, message: ClientMessage)
    ensures Responses(outbox + [message]) == Responses(outbox) + if message.CommandResponse? then [message] else []
  {
    assert (outbox + [message])[..|outbox|] == outbox;
  }

  lemma DeliveredNext(answered: seq<Answered>, a: Answered)
    ensures Delivered(answered + [a]) == Delivered(answered) + if a.connected then [a.command] else []
  {
    assert (answered + [a])[..|answered|] == answered;
  }

  lemma ObeyedStep(lib: Library, net: Network, h: History, op: Op)
    requires Obeyed(h)
    ensures Obeyed(After(lib, net, h, op))
  {
    hide FeedAll, Feed, Marked, Acknowledged, Awaited, Err.ClearAll, ReportedAs, ConnectedAfter, IsRegistered, Listed, Responses, Delivered;
    var s, l := h.session, h.ledger;
    match op
    case Send(status, kind, error) =>
      ResponsesNext(s.outbox, Status(NewStatus(s, status, kind, error)));
    case Greeting(devices) =>
      ResponsesNext(s.outbox, Connect(net.sessions(s.generated), devices));
    case CommandArrival(session, counter, command) =>
      var response := ResponseFor(lib, s, command.device);
      ResponsesNext(s.outbox, CommandResponse(s.id, response, counter));
      DeliveredNext(l.answered, Answered(counter, command, Listed(s.connected, command.device)));
    case _ =>
  }

  // Registration.

  lemma RegisteredFeed(lib: Library, errors: map<int, Err.Errors>, status: DeviceStatus, number: int, id: Identity)
    requires number in errors && id in errors[number]
    ensures var after := Feed(lib, errors, status); number in after && id in after[number]
  {
  }

  lemma {:induction false} RegisteredFlush(lib: Library, errors: map<int, Err.Errors>, pending: seq<Sent>,
                                           number: int, id: Identity)
    requires number in errors && id in errors[number]
    ensures var after := FeedAll(lib, errors, pending); number in after && id in after[number]
    decreases |pending|
  {
    hide Feed;
    if pending != [] {
      var n := |pending| - 1;
      RegisteredFlush(lib, errors, pending[..n], number, id);
      RegisteredFeed(lib, FeedAll(lib, errors, pending[..n]), pending[n].status, number, id);
    }
  }

  /** No operation unregisters a device. */
  lemma RegisteredStep(lib: Library, net: Network, s: Session, op: Op, device: DeviceId)
    requires IsRegistered(s, device)
    ensures IsRegistered(Step(lib, net, s, op), device)
  {
    hide Feed, FeedAll, ReportedAs, ConnectedAfter, Acknowledged;
    var number, id := device.identity.moduleNumber, device.identity;
    RegisteredFlush(lib, s.errors, s.pending, number, id);
    match op
    case Send(status, kind, error) =>
      var sent := NewStatus(s, status, kind, error);
      RegisteredFeed(lib, s.errors, status, number, id);
      RegisteredFlush(lib, s.errors, s.pending + [sent], number, id);
      RegisteredFlush(lib, Feed(lib, s.errors, status), s.pending + [sent], number, id);
    case Absorb(status) =>
      RegisteredFeed(lib, FeedAll(lib, s.errors, s.pending), status, number, id);
    case _ =>
  }

  // Runs.

  /** Everything the ledger is kept for. */
  ghost predicate Kept(lib: Library, modules: set<int>, h: History) {
    Conserved(h) && Accounted(lib, modules, h) && Numbered(h) && Obeyed(h) && Handed(h)
  }

  lemma StartIsFresh(lib: Library, modules: set<int>)
    ensures var h := Start(modules); Kept(lib, modules, h)
  {
  }

  lemma {:induction false} RunKeeps(lib: Library, net: Network, modules: set<int>, ops: seq<Op>)
    ensures var h := Run(lib, net, modules, ops);
            Kept(lib, modules, h)
    decreases |ops|
  {
    hide After, Start, Conserved, Accounted, Numbered, Obeyed, Handed;
    if ops == [] {
      StartIsFresh(lib, modules);
    } else {
      var n := |ops| - 1;
      RunKeeps(lib, net, modules, ops[..n]);
      var h := Run(lib, net, modules, ops[..n]);
      ConservedStep(lib, net, h, ops[n]);
      AccountedStep(lib, net, modules, h, ops[n]);
      NumberedStep(lib, net, h, ops[n]);
      ObeyedStep(lib, net, h, ops[n]);
      HandedStep(lib, net, h, ops[n]);
    }
  }

  /**
    No status taken for sending vanishes: it is acknowledged, still pending, or was fed to the error
    aggregator of its module, and the latter in the order of sending.
   */
  lemma NoSentStatusVanishes(lib: Library, net: Network, modules: set<int>, ops: seq<Op>)
    ensures var h := Run(lib, net, modules, ops);
            var lost := Lost(h.ledger.fed);
            && multiset(h.ledger.taken) == multiset(h.ledger.acked) + multiset(h.session.pending) + multiset(lost)
            && Subsequence(lost + h.session.pending, h.ledger.taken)
            && (forall sent :: sent in h.session.pending ==> Supports(h.session, sent.status.device))
            && SentIn(h.session.outbox) == h.ledger.taken
  {
    hide Lost, Subsequence, Run, Accounted, SentIn;
    RunKeeps(lib, net, modules, ops);
    PendingIsSupported(lib, modules, Run(lib, net, modules, ops));
  }

  lemma PendingIsSupported(lib: Library, modules: set<int>, h: History)
    requires Accounted(lib, modules, h)
    ensures forall sent :: sent in h.session.pending ==> Supports(h.session, sent.status.device)
  {
  }

  /**
    What an error aggregator tells about a device is the fold of what was fed for it since the last wipe,
    whatever else happened on the connection.
   */
  lemma ErrorsTellWhatWasFed(lib: Library, net: Network, modules: set<int>, ops: seq<Op>, id: Identity)
    requires id.moduleNumber in modules
    ensures var h := Run(lib, net, modules, ops);
            var m, fed := lib(id.moduleNumber), ErrorOps(h.ledger.fed, id.moduleNumber);
            && id.moduleNumber in h.session.errors
            && var errors := h.session.errors[id.moduleNumber];
            && (id in errors <==> m.supports(id.deviceType) && Err.EverAdded(fed, id))
            && (id in errors ==>
                  var statuses := Err.Since(fed, id);
                  errors[id] == if statuses == [] then Err.BLANK
                                else Err.ErrorState(Err.Fold(m, id.deviceType, statuses), statuses[|statuses| - 1]))
  {
    hide Run, Err.Run, Err.Fold, Err.Since, Err.EverAdded, ErrorOps, Conserved, Numbered, Obeyed;
    RunKeeps(lib, net, modules, ops);
    Err.ErrorsAreFolds(lib(id.moduleNumber), ErrorOps(Run(lib, net, modules, ops).ledger.fed, id.moduleNumber), id);
  }

  /**
    While the counter has not gone round, an acknowledgement of a pending counter takes out the one status
    that has it, and the same acknowledgement again is refused and changes nothing.
   */
  lemma AcknowledgedExactlyOnce(lib: Library, net: Network, modules: set<int>, ops: seq<Op>, counter: uint32)
    ensures var h := Run(lib, net, modules, ops);
            var s, t := h.session, Acknowledge(h.session, counter);
            h.ledger.sends < TWO_32 ==>
              && (Awaited(s.pending, counter) ==> 1 <= counter <= s.sendCounter)
              && (Awaited(s.pending, counter) ==>
                    var k := Position(s.pending, counter);
                    && (forall j :: 0 <= j < |s.pending| && s.pending[j].counter == counter ==> j == k)
                    && t.pending == s.pending[..k] + s.pending[k + 1..])
              && !Awaited(t.pending, counter)
              && !AcknowledgedWell(t.pending, t.connected, counter) && Acknowledge(t, counter) == t
  {
    hide Run, Acknowledged, Conserved, Accounted, Obeyed;
    RunKeeps(lib, net, modules, ops);
    var s := Run(lib, net, modules, ops).session;
    AcknowledgementTakesOne(s.pending, counter);
    AcknowledgementTakesOne(Acknowledge(s, counter).pending, counter);
  }

  /**
    Since the counters were reset, whatever follows a counter other than 0 and the largest is that counter
    plus one; and the responses match the accepted commands.
   */
  lemma CommandsAreInOrder(lib: Library, net: Network, modules: set<int>, ops: seq<Op>)
    ensures var h := Run(lib, net, modules, ops);
            var chain := h.ledger.chain;
            && (forall i :: 0 <= i < |chain| - 1 && chain[i] != 0 && chain[i] != TWO_32 - 1 ==> chain[i + 1] == chain[i] + 1)
            && Matches(Responses(h.session.outbox), h.ledger.answered)
            && h.session.commands == Delivered(h.ledger.answered)
  {
    hide Run, Responses, Matches, Delivered, Conserved, Accounted, Numbered;
    RunKeeps(lib, net, modules, ops);
  }

  /** A device registered at some point of a run is registered ever after. */
  lemma {:induction false} RegistrationLasts(lib: Library, net: Network, modules: set<int>, before: seq<Op>,
                                             more: seq<Op>, device: DeviceId)
    requires IsRegistered(Run(lib, net, modules, before).session, device)
    ensures IsRegistered(Run(lib, net, modules, before + more).session, device)
    decreases |more|
  {
    hide IsRegistered, Step, Enter;
    var all := before + more;
    if more == [] {
      assert all == before;
    } else {
      var n := |more| - 1;
      RegistrationLasts(lib, net, modules, before, more[..n], device);
      assert all[..|all| - 1] == before + more[..n];
      RegisteredStep(lib, net, Run(lib, net, modules, before + more[..n]).session, more[n], device);
    }
  }

  // Disconnecting.

  lemma ConnectedAfterSend(lib: Library, net: Network, s: Session, status: DeviceStatus, kind: Kind, error: Buffer)
    requires Supports(s, status.device)
    ensures SendStatus(lib, net, s, status, kind, error).connected
         == ConnectedAfter(s.connected, status.device, ReportedAs(s, status.device, kind))
    ensures lib(status.device.identity.moduleNumber).supports(status.device.identity.deviceType) ==>
              IsRegistered(SendStatus(lib, net, s, status, kind, error), status.device)
  {
    hide FeedAll, ConnectedAfter, ReportedAs;
    var number, id := status.device.identity.moduleNumber, status.device.identity;
    var errors := if IsRegistered(s, status.device) then s.errors else Feed(lib, s.errors, status);
    if lib(number).supports(id.deviceType) {
      RegisteredFlush(lib, errors, s.pending + [NewStatus(s, status, kind, error)], number, id);
    }
  }

  lemma ListedLast(devices: seq<DeviceId>, device: DeviceId)
    ensures Listed(devices + [device], device)
  {
    assert (devices + [device])[|devices|] == device;
  }

  /**
    A device that is told to be disconnected is connected afterwards exactly when it was not registered, which
    has it connected instead, or when it had been entered more than once.
   */
  lemma ConnectedAfterDisconnect(lib: Library, net: Network, s: Session, status: DeviceStatus, error: Buffer)
    requires Supports(s, status.device)
    ensures Listed(SendStatus(lib, net, s, status, Disconnecting, error).connected, status.device)
       <==> !IsRegistered(s, status.device) || Entries(s.connected, status.device) > 1
  {
    hide SendStatus, IsRegistered, Listed, Entries, Unlisted;
    ConnectedAfterSend(lib, net, s, status, Disconnecting, error);
    DisconnectTakesOneEntry(s.connected, status.device, status.device);
    ListedLast(s.connected, status.device);
  }

  /** A device connects, the connection is dropped, and the device is connected again. */
  function ConnectedTwice(status: DeviceStatus): seq<Op> {
    [Send(status, Connecting, []), Drop, Send(status, Connecting, [])]
  }

  lemma RunNext(lib: Library, net: Network, modules: set<int>, ops: seq<Op>, op: Op)
    ensures Run(lib, net, modules, ops + [op]) == After(lib, net, Run(lib, net, modules, ops), op)
  {
    hide After, Start;
    assert (ops + [op])[..|ops|] == ops;
  }

  lemma EntriesNext(devices: seq<DeviceId>, device: DeviceId)
    ensures Entries(devices + [device], device) == Entries(devices, device) + 1
  {
    if devices != [] {
      assert (devices + [device])[1..] == devices[1..] + [device];
      EntriesNext(devices[1..], device);
    }
  }

  /** Such a run ends with a device that is entered twice, and so survives its disconnect. */
  lemma ReconnectedDeviceStays(lib: Library, net: Network, status: DeviceStatus)
    requires lib(status.device.identity.moduleNumber).supports(status.device.identity.deviceType)
    ensures var s := Run(lib, net, {status.device.identity.moduleNumber}, ConnectedTwice(status)).session;
            && IsRegistered(s, status.device)
            && Entries(s.connected, status.device) == 2
            && Listed(SendStatus(lib, net, s, status, Disconnecting, []).connected, status.device)
  {
    hide Run, SendStatus, FeedAll, Entries, Enter, IsRegistered, ReportedAs;
    var modules, device := {status.device.identity.moduleNumber}, status.device;
    var s0 := Start(modules).session;
    assert Run(lib, net, modules, []) == Start(modules) by { RunNothing(lib, net, modules); }
    RunNext(lib, net, modules, [], Send(status, Connecting, []));
    assert [] + [Send(status, Connecting, [])] == [Send(status, Connecting, [])];
    RunNext(lib, net, modules, [Send(status, Connecting, [])], Drop);
    assert [Send(status, Connecting, [])] + [Drop] == [Send(status, Connecting, []), Drop];
    RunNext(lib, net, modules, [Send(status, Connecting, []), Drop], Send(status, Connecting, []));
    assert [Send(status, Connecting, []), Drop] + [Send(status, Connecting, [])] == ConnectedTwice(status);
    var s1 := SendStatus(lib, net, s0, status, Connecting, []);
    ConnectedAfterSend(lib, net, s0, status, Connecting, []);
    var s2 := Reset(lib, s1);
    assert Step(lib, net, s1, Drop) == s2;
    RegisteredStep(lib, net, s1, Drop, device);
    RegisteredIsSupported(s2, device);
    var s3 := SendStatus(lib, net, s2, status, Connecting, []);
    ConnectedAfterSend(lib, net, s2, status, Connecting, []);
    ReportsConnecting(s0, device);
    ReportsConnecting(s2, device);
    EntriesNext(s0.connected, device);
    EntriesNext(s2.connected, device);
    NoEntries(device);
    RegisteredIsSupported(s3, device);
    ConnectedAfterDisconnect(lib, net, s3, status, []);
  }

  lemma RunNothing(lib: Library, net: Network, modules: set<int>)
    ensures Run(lib, net, modules, []) == Start(modules)
  {
  }

  lemma RegisteredIsSupported(s: Session, device: DeviceId)
    requires IsRegistered(s, device)
    ensures Supports(s, device)
  {
  }

  lemma ReportsConnecting(s: Session, device: DeviceId)
    ensures ReportedAs(s, device, Connecting) == Connecting
  {
  }

  lemma NoEntries(device: DeviceId)
    ensures Entries([], device) == 0
  {
  }

  /** A disconnect that is the first the server hears of a device has the device connected. */
  lemma UnknownDeviceConnects(lib: Library, net: Network, status: DeviceStatus)
    ensures var s := Run(lib, net, {status.device.identity.moduleNumber}, []).session;
            && Entries(s.connected, status.device) == 0
            && Listed(SendStatus(lib, net, s, status, Disconnecting, []).connected, status.device)
  {
    hide SendStatus;
    ConnectedAfterDisconnect(lib, net, Run(lib, net, {status.device.identity.moduleNumber}, []).session, status, []);
  }
}
