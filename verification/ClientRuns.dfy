/**
  Every run of the external client, with a log of the messages taken out of the queue and the connection each
  of them went to. Each connection goes through a run of its own operations, which are spelled out; so what
  holds over those runs holds for each connection of the client.
 */
module ClientRuns {
  import opened Common
  import opened SentMessages
  import opened SessionSpec
  import opened SessionRuns
  import opened SessionScripts
  import opened ConnectLanguage
  import opened ClientSpec
  import opened ClientMessages
  import opened ClientSequence
  import AggregatorSpec

  /** A message taken, and the connection it went to, if any has its module. */
  datatype Handled = Handled(item: ExternalItem, to: Option<nat>)

  function HandledBy(u: Setup, k: nat, items: seq<ExternalItem>): seq<Handled> {
    if items == [] then []
    else
      var n := |items| - 1;
      HandledBy(u, k, items[..n]) + [Handled(items[n], Destination(u, k, items[n]))]
  }

  function Items(log: seq<Handled>): seq<ExternalItem> {
    if log == [] then [] else Items(log[..|log| - 1]) + [log[|log| - 1].item]
  }

  /** The messages that went to one connection. */
  function Own(log: seq<Handled>, j: nat): seq<ExternalItem> {
    if log == [] then []
    else
      var last := log[|log| - 1];
      Own(log[..|log| - 1], j) + if last.to == Some(j) then [last.item] else []
  }

  lemma {:induction false} LogAppend(log: seq<Handled>, more: seq<Handled>, j: nat)
    ensures Items(log + more) == Items(log) + Items(more)
    ensures Own(log + more, j) == Own(log, j) + Own(more, j)
    decreases |more|
  {
    var all := log + more;
    if more == [] {
      assert all == log;
    } else {
      assert all[..|all| - 1] == log + more[..|more| - 1];
      LogAppend(log, more[..|more| - 1], j);
    }
  }

  lemma {:induction false} HandledItems(u: Setup, k: nat, items: seq<ExternalItem>, j: nat)
    ensures Items(HandledBy(u, k, items)) == items
    ensures Own(HandledBy(u, k, items), j) == ItemsFor(u, k, items, j)
    decreases |items|
  {
    hide Destination;
    if items != [] {
      var n := |items| - 1;
      HandledItems(u, k, items[..n], j);
      var before := HandledBy(u, k, items[..n]);
      assert HandledBy(u, k, items)[..|before|] == before;
      assert items == items[..n] + [items[n]];
    }
  }

  // A connect sequence.

  /** The messages that a connect sequence takes: those of the drain, of the wait, and beside the attempt. */
  function SequenceItems(u: Setup, k: nat, c: Client, e: Surroundings): seq<ExternalItem>
    requires Fits(u, c.sessions) && k < |c.sessions|
  {
    c.queue[..Leading(c.queue)]
    + WaitFor(u, k, WaitStart(u, k, c, e.devices), e.waiting).taken
    + Concat(DrainBeside(u, k, Prepare(u, k, c, e).client, e.connecting).groups)
  }

  /** The messages that arrive while it lasts. */
  function SequenceArrivals(u: Setup, k: nat, c: Client, e: Surroundings): seq<ExternalItem>
    requires Fits(u, c.sessions) && k < |c.sessions|
  {
    Concat(e.waiting[..WaitRounds(u, k, WaitStart(u, k, c, e.devices), e.waiting)]) + Arrivals(e.connecting)
  }

  /** What a connect sequence makes of one connection up to the attempt. */
  function PrepareOps(u: Setup, k: nat, c: Client, e: Surroundings, j: nat): seq<Op>
    requires Fits(u, c.sessions) && k < |c.sessions| && j < |c.sessions|
  {
    var drained, waited := ItemsFor(u, k, c.queue[..Leading(c.queue)], j), WaitFor(u, k, WaitStart(u, k, c, e.devices), e.waiting);
    ReceiveOps(u, k, j, c.sessions[j], drained + ItemsFor(u, k, waited.taken, j)) + if j == k then [FlushPending] else []
  }

  function SequenceOps(u: Setup, k: nat, c: Client, e: Surroundings, j: nat): seq<Op>
    requires Fits(u, c.sessions) && k < |c.sessions| && j < |c.sessions|
  {
    var prepared := Prepare(u, k, c, e).client;
    var beside := DrainBeside(u, k, prepared, e.connecting);
    PrepareOps(u, k, c, e, j) +
    if j == k then
      InitializeScript(u.lib, u.nets[k], prepared.sessions[k], Meanwhile(u.modules[k], beside.groups), e.devices)
    else
      ReceiveOps(u, k, j, prepared.sessions[j], ItemsFor(u, k, Concat(beside.groups), j))
  }

  /** Playing the operations leads to the session, and brings exactly the given messages. */
  ghost predicate Brings(lib: Library, net: Network, s: Session, ops: seq<Op>, t: Session, items: seq<ExternalItem>) {
    Play(lib, net, s, ops) == t && Brought(ops) == Statuses(items)
  }

  lemma BringsOn(lib: Library, net: Network, s: Session, ops: seq<Op>, t: Session, items: seq<ExternalItem>,
                 more: seq<Op>, w: Session, others: seq<ExternalItem>)
    requires Brings(lib, net, s, ops, t, items) && Brings(lib, net, t, more, w, others)
    ensures Brings(lib, net, s, ops + more, w, items + others)
  {
    hide Play, Brought, Statuses;
    PlayAppend(lib, net, s, ops, more);
    StatusesAppend(items, others);
  }

  lemma BringsNothing(lib: Library, net: Network, s: Session, op: Op)
    ensures Brings(lib, net, s, [], s, [])
    ensures BroughtBy(op) == [] ==> Brings(lib, net, s, [op], Step(lib, net, s, op), [])
  {
    hide Play, Brought, Step, BroughtBy;
    PlayNothing(lib, net, s);
    PlayOne(lib, net, s, op);
  }

  lemma ReceivesBrings(u: Setup, k: nat, j: nat, s: Session, items: seq<ExternalItem>)
    requires j < |u.nets|
    ensures Brings(u.lib, u.nets[j], s, ReceiveOps(u, k, j, s, items), Receives(u, k, j, s, items), items)
  {
    hide Play, Brought, Statuses, ReceiveOps, Receives;
    ReceivesPlays(u, k, j, s, items);
  }

  lemma PrepareBrings(u: Setup, k: nat, c: Client, e: Surroundings, j: nat)
    requires Fits(u, c.sessions) && k < |c.sessions| && j < |c.sessions|
    ensures var taken := c.queue[..Leading(c.queue)] + WaitFor(u, k, WaitStart(u, k, c, e.devices), e.waiting).taken;
            Brings(u.lib, u.nets[j], c.sessions[j], PrepareOps(u, k, c, e, j), Prepare(u, k, c, e).client.sessions[j],
                   ItemsFor(u, k, taken, j))
  {
    hide Brings, ItemsFor, Receives, ReceiveOps, WaitFor, Drain, Flush, Unregistered, Leading;
    var start := WaitStart(u, k, c, e.devices);
    var waited := WaitFor(u, k, start, e.waiting);
    var leading, s := c.queue[..Leading(c.queue)], c.sessions[j];
    DrainedShare(u, k, c, j);
    WaitDelivers(u, k, start.client, start.forced, e.waiting, j);
    var mine := ItemsFor(u, k, leading, j) + ItemsFor(u, k, waited.taken, j);
    ReceivesOn(u, k, j, s, ItemsFor(u, k, leading, j), ItemsFor(u, k, waited.taken, j));
    ItemsForAppend(u, k, leading, waited.taken, j);
    ReceivesBrings(u, k, j, s, mine);
    var t := waited.client.sessions[j];
    BringsNothing(u.lib, u.nets[j], t, FlushPending);
    BringsOn(u.lib, u.nets[j], s, ReceiveOps(u, k, j, s, mine), t, mine,
             if j == k then [FlushPending] else [], Prepare(u, k, c, e).client.sessions[j], []);
    assert mine + [] == mine;
  }

  lemma DrainedShare(u: Setup, k: nat, c: Client, j: nat)
    requires Fits(u, c.sessions) && k < |c.sessions| && j < |c.sessions|
    ensures Drain(u, k, c).sessions[j] == Receives(u, k, j, c.sessions[j], ItemsFor(u, k, c.queue[..Leading(c.queue)], j))
  {
    hide TakeAll, Receives, ItemsFor;
    EachGetsItsOwn(u, k, c.sessions, c.queue[..Leading(c.queue)], j);
  }

  /** The attempt brings the connection its own of the messages taken beside it. */
  lemma AttemptBrings(u: Setup, k: nat, c: Client, turns: seq<seq<seq<ExternalItem>>>, devices: seq<DeviceId>)
    requires Fits(u, c.sessions) && k < |c.sessions|
    ensures var beside := DrainBeside(u, k, c, turns);
            var meanwhile := Meanwhile(u.modules[k], beside.groups);
            Brings(u.lib, u.nets[k], c.sessions[k],
                   InitializeScript(u.lib, u.nets[k], c.sessions[k], meanwhile, devices),
                   Initialize(u.lib, u.nets[k], beside.client.sessions[k], meanwhile, devices).session,
                   ItemsFor(u, k, Concat(beside.groups), k))
  {
    hide Play, Brought, Statuses, DrainBeside, Concat, ItemsFor, Meanwhile, Flatten, Initialize, InitializeScript, Quiet;
    var beside := DrainBeside(u, k, c, turns);
    BesideTakesFront(u, k, c, turns, k);
    InitializePlays(u.lib, u.nets[k], c.sessions[k], Meanwhile(u.modules[k], beside.groups), devices);
    MeanwhileIsOwn(u, k, beside.groups);
  }

  /** A connect sequence takes every connection through operations that bring it exactly its own messages. */
  lemma SequenceBrings(u: Setup, k: nat, c: Client, e: Surroundings, j: nat)
    requires Fits(u, c.sessions) && k < |c.sessions| && j < |c.sessions|
    ensures Brings(u.lib, u.nets[j], c.sessions[j], SequenceOps(u, k, c, e, j), StartSequence(u, k, c, e).sessions[j],
                   ItemsFor(u, k, SequenceItems(u, k, c, e), j))
  {
    hide Brings, ItemsFor, Receives, ReceiveOps, PrepareOps, WaitFor, WaitStart, Prepare, DrainBeside, Meanwhile, Concat,
      Initialize, InitializeScript, Leading;
    var before := c.queue[..Leading(c.queue)] + WaitFor(u, k, WaitStart(u, k, c, e.devices), e.waiting).taken;
    var prepared := Prepare(u, k, c, e).client;
    var beside := DrainBeside(u, k, prepared, e.connecting);
    PrepareBrings(u, k, c, e, j);
    ItemsForAppend(u, k, before, Concat(beside.groups), j);
    AttemptBrings(u, k, prepared, e.connecting, e.devices);
    BesideTakesFront(u, k, prepared, e.connecting, j);
    var own := ItemsFor(u, k, Concat(beside.groups), j);
    ReceivesBrings(u, k, j, prepared.sessions[j], own);
    var more := if j == k then
        InitializeScript(u.lib, u.nets[k], prepared.sessions[k], Meanwhile(u.modules[k], beside.groups), e.devices)
      else ReceiveOps(u, k, j, prepared.sessions[j], own);
    BringsOn(u.lib, u.nets[j], c.sessions[j], PrepareOps(u, k, c, e, j), prepared.sessions[j], ItemsFor(u, k, before, j),
             more, StartSequence(u, k, c, e).sessions[j], own);
  }

  /** A connect sequence loses and doubles no message. */
  lemma SequenceConserves(u: Setup, k: nat, c: Client, e: Surroundings)
    requires Fits(u, c.sessions) && k < |c.sessions|
    ensures multiset(StartSequence(u, k, c, e).queue) + multiset(SequenceItems(u, k, c, e))
         == multiset(c.queue) + multiset(SequenceArrivals(u, k, c, e))
  {
    hide WaitFor, DrainBeside, Meanwhile, Concat, Initialize, Flush, TakeAll, WaitRounds, Unregistered, Arrivals, Leading, ItemsFor;
    var start := WaitStart(u, k, c, e.devices);
    var waited := WaitFor(u, k, start, e.waiting);
    var prepared := Prepare(u, k, c, e).client;
    var beside := DrainBeside(u, k, prepared, e.connecting);
    var waiting := Concat(e.waiting[..WaitRounds(u, k, start, e.waiting)]);
    WaitConserves(u, k, start, e.waiting);
    BesideTakesFront(u, k, prepared, e.connecting, k);
    var n := Leading(c.queue);
    Balance(c.queue, c.queue[..n], c.queue[n..], waiting, waited.client.queue, waited.taken,
            Arrivals(e.connecting), Concat(beside.groups), beside.client.queue);
  }

  lemma Balance(queue: seq<ExternalItem>, leading: seq<ExternalItem>, rest: seq<ExternalItem>, waiting: seq<ExternalItem>,
                waited: seq<ExternalItem>, taken: seq<ExternalItem>, connecting: seq<ExternalItem>,
                groups: seq<ExternalItem>, end: seq<ExternalItem>)
    requires queue == leading + rest
    requires multiset(waited) + multiset(taken) == multiset(rest) + multiset([]) + multiset(waiting)
    requires waited + connecting == groups + end
    ensures multiset(end) + multiset(leading + taken + groups) == multiset(queue) + multiset(waiting + connecting)
  {
    assert multiset(leading + taken + groups) == multiset(leading) + multiset(taken) + multiset(groups);
    assert multiset(queue) == multiset(leading) + multiset(rest);
    assert multiset(waiting + connecting) == multiset(waiting) + multiset(connecting);
    assert multiset(waited) + multiset(connecting) == multiset(waited + connecting) == multiset(groups) + multiset(end) by {
      assert multiset(groups + end) == multiset(groups) + multiset(end);
    }
    Sums(multiset(leading), multiset(rest), multiset(waiting), multiset(waited), multiset(taken), multiset(connecting),
         multiset(groups), multiset(end));
  }

  lemma Sums(l: multiset<ExternalItem>, r: multiset<ExternalItem>, w: multiset<ExternalItem>, q: multiset<ExternalItem>,
             t: multiset<ExternalItem>, n: multiset<ExternalItem>, g: multiset<ExternalItem>, z: multiset<ExternalItem>)
    requires q + t == r + w && q + n == g + z
    ensures z + (l + t + g) == l + r + (w + n)
  {
    assert z + (l + t + g) == l + t + (g + z);
    assert l + t + (q + n) == l + (q + t) + n;
    assert l + (r + w) + n == l + r + (w + n);
  }

  // The operations of the client.

  datatype ClientOp =
    | Other(event: Event)
    | SendNext(meets: nat -> Surroundings)
    | Reconnecting(meets: nat -> Surroundings)

  function Apply(u: Setup, c: Client, op: ClientOp): (after: Client)
    requires Fits(u, c.sessions)
    ensures Fits(u, after.sessions)
  {
    match op
    case Other(event) => Happen(u, c, event)
    case SendNext(e) => Serve(u, c, e)
    case Reconnecting(e) => Answer(u, c, e)
  }

  /** The connection that an operation drops, because it was asked for. */
  function Dropped(c: Client, op: ClientOp): Option<nat> {
    if op.Reconnecting? && c.requests != [] && c.requests[0].connection < |c.sessions| then Some(c.requests[0].connection) else None
  }

  /** The client after the first part of an operation. */
  function Halfway(u: Setup, c: Client, op: ClientOp): (d: Client)
    requires Fits(u, c.sessions)
    ensures Fits(u, d.sessions) && |d.sessions| == |c.sessions|
  {
    match op
    case Other(event) => Happen(u, c, event)
    case SendNext(_) =>
      if c.queue == [] then c else c.(sessions := Route(u, c.sessions, c.queue[0]), queue := c.queue[1..])
    case Reconnecting(_) =>
      var answered := if c.requests == [] then c else c.(requests := c.requests[1..]);
      (match Dropped(c, op)
       case Some(k) => answered.(sessions := c.sessions[k := Reset(u.lib, c.sessions[k])])
       case None => answered)
  }

  /** A connect sequence that an operation starts, and the client as it starts. */
  datatype Launch = Launch(connection: nat, client: Client, surroundings: Surroundings)

  function Launched(u: Setup, c: Client, op: ClientOp): (l: Option<Launch>)
    requires Fits(u, c.sessions)
    ensures l.Some? ==> Fits(u, l.value.client.sessions) && l.value.connection < |c.sessions| == |l.value.client.sessions|
  {
    match op
    case SendNext(e) =>
      if c.queue == [] || ModuleOf(c.queue[0]) !in u.owners then None
      else
        var j := u.owners[ModuleOf(c.queue[0])];
        if c.sessions[j].link != NotInitialized then None
        else Some(Launch(j, c.(sessions := Route(u, c.sessions, c.queue[0]), queue := c.queue[1..]), e(j)))
    case Reconnecting(e) =>
      if Dropped(c, op) == None || !c.requests[0].again then None
      else Some(Launch(c.requests[0].connection, Halfway(u, c, op), e(c.requests[0].connection)))
    case _ => None
  }

  /** The messages that an operation takes, apart from those of a connect sequence it starts. */
  function FirstTaken(u: Setup, c: Client, op: ClientOp): seq<ExternalItem> {
    if op.SendNext? && c.queue != [] then [c.queue[0]] else []
  }

  function LogOf(u: Setup, c: Client, op: ClientOp): seq<Handled>
    requires Fits(u, c.sessions)
  {
    HandledBy(u, |u.modules|, FirstTaken(u, c, op)) +
    match Launched(u, c, op)
    case Some(Launch(k, d, e)) => HandledBy(u, k, SequenceItems(u, k, d, e))
    case None => []
  }

  function ItemsOf(op: ClientOp): seq<ExternalItem> {
    if op.Other? && op.event.Arrive? then op.event.items else []
  }

  function ArrivedIn(u: Setup, c: Client, op: ClientOp): seq<ExternalItem>
    requires Fits(u, c.sessions)
  {
    ItemsOf(op) +
    match Launched(u, c, op)
    case Some(Launch(k, d, e)) => SequenceArrivals(u, k, d, e)
    case None => []
  }

  /** What one connection goes through before a connect sequence. */
  function FirstOps(u: Setup, c: Client, op: ClientOp, j: nat): seq<Op>
    requires Fits(u, c.sessions) && j < |c.sessions|
  {
    match op
    case Other(Receiving(k, rounds)) => if j == k then ReceiveScript(u.lib, u.nets[j], c.sessions[j], rounds) else []
    case Other(_) => []
    case SendNext(_) => ReceiveOps(u, |u.modules|, j, c.sessions[j], ItemsFor(u, |u.modules|, FirstTaken(u, c, op), j))
    case Reconnecting(_) => if Dropped(c, op) == Some(j) then [Drop] else []
  }

  function OpsOf(u: Setup, c: Client, op: ClientOp, j: nat): seq<Op>
    requires Fits(u, c.sessions) && j < |c.sessions|
  {
    FirstOps(u, c, op, j) +
    match Launched(u, c, op)
    case Some(Launch(k, d, e)) => SequenceOps(u, k, d, e, j)
    case None => []
  }

  lemma ApplyInHalves(u: Setup, c: Client, op: ClientOp)
    requires Fits(u, c.sessions)
    ensures match Launched(u, c, op)
            case Some(Launch(k, d, e)) => d == Halfway(u, c, op) && Apply(u, c, op) == StartSequence(u, k, d, e)
            case None => Apply(u, c, op) == Halfway(u, c, op)
  {
    hide StartSequence, Deliver, Reset, Receive;
  }

  lemma HalfwayBrings(u: Setup, c: Client, op: ClientOp, j: nat)
    requires Fits(u, c.sessions) && j < |c.sessions|
    ensures Brings(u.lib, u.nets[j], c.sessions[j], FirstOps(u, c, op, j), Halfway(u, c, op).sessions[j],
                   ItemsFor(u, |u.modules|, FirstTaken(u, c, op), j))
  {
    hide Brings, Route, Receive, ReceiveScript, Reset, Receives, ReceiveOps, ItemsFor;
    var s, none := c.sessions[j], |u.modules|;
    BringsNothing(u.lib, u.nets[j], s, Drop);
    NothingFor(u, none, j);
    match op
    case SendNext(_) =>
      RouteShare(u, c.sessions, FirstTaken(u, c, op), j);
      ReceivesBrings(u, none, j, s, ItemsFor(u, none, FirstTaken(u, c, op), j));
    case Other(Receiving(k, rounds)) =>
      ReceiveBringsNothing(u.lib, u.nets[j], s, rounds);
    case _ =>
  }

  lemma NothingFor(u: Setup, k: nat, j: nat)
    ensures ItemsFor(u, k, [], j) == []
  {
  }

  lemma RouteShare(u: Setup, sessions: seq<Session>, items: seq<ExternalItem>, j: nat)
    requires Fits(u, sessions) && j < |sessions| && |items| <= 1
    ensures (if items == [] then sessions else Route(u, sessions, items[0]))[j]
         == Receives(u, |u.modules|, j, sessions[j], ItemsFor(u, |u.modules|, items, j))
  {
    hide Deliver, Route, Destination, ItemsFor, Receives;
    var none := |u.modules|;
    Nothing(u, none, j, sessions[j]);
    if items != [] {
      RoutedTo(u, sessions, items[0], j);
      ItemsForNext(u, none, [], items[0], j);
      assert [] + [items[0]] == items;
      ReceivesNext(u, none, j, sessions[j], [], items[0]);
    }
  }

  lemma RoutedTo(u: Setup, sessions: seq<Session>, item: ExternalItem, j: nat)
    requires Fits(u, sessions) && j < |sessions|
    ensures Route(u, sessions, item)[j]
         == if Destination(u, |u.modules|, item) == Some(j) then Deliver(u.lib, u.nets[j], sessions[j], item) else sessions[j]
  {
    hide Deliver;
  }

  lemma ReceiveBringsNothing(lib: Library, net: Network, s: Session, rounds: nat)
    ensures Brings(lib, net, s, ReceiveScript(lib, net, s, rounds), Receive(lib, net, s, rounds).session, [])
  {
    hide Play, Brought, Flatten, Receive, ReceiveScript, Quiet;
    ReceiveLeads(lib, net, s, rounds);
    var brought := Brought(ReceiveScript(lib, net, s, rounds));
    assert |brought + Flatten(s.ahead)| == |brought| + |Flatten(s.ahead)|;
  }

  lemma ApplyBrings(u: Setup, c: Client, op: ClientOp, j: nat)
    requires Fits(u, c.sessions) && j < |c.sessions|
    ensures Brings(u.lib, u.nets[j], c.sessions[j], OpsOf(u, c, op, j), Apply(u, c, op).sessions[j], Own(LogOf(u, c, op), j))
  {
    hide Brings, FirstOps, Halfway, Apply, Launched, SequenceOps, SequenceItems, StartSequence, ItemsFor, HandledBy, Own, FirstTaken;
    HalfwayBrings(u, c, op, j);
    ApplyInHalves(u, c, op);
    var first := HandledBy(u, |u.modules|, FirstTaken(u, c, op));
    HandledItems(u, |u.modules|, FirstTaken(u, c, op), j);
    match Launched(u, c, op)
    case Some(Launch(k, d, e)) =>
      SequenceBrings(u, k, d, e, j);
      HandledItems(u, k, SequenceItems(u, k, d, e), j);
      LogAppend(first, HandledBy(u, k, SequenceItems(u, k, d, e)), j);
      BringsOn(u.lib, u.nets[j], c.sessions[j], FirstOps(u, c, op, j), d.sessions[j], Own(first, j),
               SequenceOps(u, k, d, e, j), Apply(u, c, op).sessions[j], Own(HandledBy(u, k, SequenceItems(u, k, d, e)), j));
    case None =>
      assert first + [] == first && FirstOps(u, c, op, j) + [] == FirstOps(u, c, op, j);
  }

  lemma HalfwayConserves(u: Setup, c: Client, op: ClientOp)
    requires Fits(u, c.sessions)
    ensures multiset(Halfway(u, c, op).queue) + multiset(FirstTaken(u, c, op))
         == multiset(c.queue) + multiset(ItemsOf(op))
  {
    hide Route, Reset, Receive;
    if op.SendNext? && c.queue != [] {
      assert c.queue == [c.queue[0]] + c.queue[1..];
    }
  }

  lemma ApplyConserves(u: Setup, c: Client, op: ClientOp)
    requires Fits(u, c.sessions)
    ensures multiset(Apply(u, c, op).queue) + multiset(Items(LogOf(u, c, op))) == multiset(c.queue) + multiset(ArrivedIn(u, c, op))
  {
    hide Halfway, Apply, Launched, SequenceItems, SequenceArrivals, StartSequence, HandledBy, Items, FirstTaken, Fits;
    HalfwayConserves(u, c, op);
    ApplyInHalves(u, c, op);
    var first, arrived := FirstTaken(u, c, op), ItemsOf(op);
    HandledItems(u, |u.modules|, first, 0);
    match Launched(u, c, op)
    case Some(Launch(k, d, e)) =>
      SequenceConserves(u, k, d, e);
      HandledItems(u, k, SequenceItems(u, k, d, e), 0);
      LogAppend(HandledBy(u, |u.modules|, first), HandledBy(u, k, SequenceItems(u, k, d, e)), 0);
      TwoSums(c.queue, arrived, d.queue, first, SequenceArrivals(u, k, d, e), Apply(u, c, op).queue, SequenceItems(u, k, d, e));
    case None =>
      assert HandledBy(u, |u.modules|, first) + [] == HandledBy(u, |u.modules|, first) && arrived + [] == arrived;
  }

  lemma TwoSums(queue: seq<ExternalItem>, arrived: seq<ExternalItem>, half: seq<ExternalItem>, first: seq<ExternalItem>,
                more: seq<ExternalItem>, end: seq<ExternalItem>, taken: seq<ExternalItem>)
    requires multiset(half) + multiset(first) == multiset(queue) + multiset(arrived)
    requires multiset(end) + multiset(taken) == multiset(half) + multiset(more)
    ensures multiset(end) + multiset(first + taken) == multiset(queue) + multiset(arrived + more)
  {
    assert multiset(first + taken) == multiset(first) + multiset(taken);
    assert multiset(arrived + more) == multiset(arrived) + multiset(more);
    ThreeSums(multiset(queue), multiset(arrived), multiset(half), multiset(first), multiset(more), multiset(end), multiset(taken));
  }

  lemma ThreeSums(q: multiset<ExternalItem>, a: multiset<ExternalItem>, h: multiset<ExternalItem>, f: multiset<ExternalItem>,
                  m: multiset<ExternalItem>, z: multiset<ExternalItem>, t: multiset<ExternalItem>)
    requires h + f == q + a && z + t == h + m
    ensures z + (f + t) == q + (a + m)
  {
    assert z + (f + t) == (z + t) + f;
    assert (h + m) + f == (h + f) + m;
    assert (q + a) + m == q + (a + m);
  }

  // Runs.

  predicate Consistent(u: Setup) {
    && |u.nets| == |u.modules|
    && forall number :: number in u.owners ==> u.owners[number] < |u.modules| && number in u.modules[u.owners[number]]
  }

  function Begin(u: Setup): (c: Client)
    requires Consistent(u)
    ensures Fits(u, c.sessions)
  {
    Client(seq(|u.modules|, i requires 0 <= i < |u.modules| => Start(u.modules[i]).session), [], [], [])
  }

  function RunClient(u: Setup, ops: seq<ClientOp>): (c: Client)
    requires Consistent(u)
    ensures Fits(u, c.sessions)
  {
    if ops == [] then Begin(u) else Apply(u, RunClient(u, ops[..|ops| - 1]), ops[|ops| - 1])
  }

  function RunLog(u: Setup, ops: seq<ClientOp>): seq<Handled>
    requires Consistent(u)
  {
    if ops == [] then []
    else RunLog(u, ops[..|ops| - 1]) + LogOf(u, RunClient(u, ops[..|ops| - 1]), ops[|ops| - 1])
  }

  function RunArrivals(u: Setup, ops: seq<ClientOp>): seq<ExternalItem>
    requires Consistent(u)
  {
    if ops == [] then []
    else RunArrivals(u, ops[..|ops| - 1]) + ArrivedIn(u, RunClient(u, ops[..|ops| - 1]), ops[|ops| - 1])
  }

  /** Everything one connection goes through in a run of the client. */
  function Script(u: Setup, ops: seq<ClientOp>, j: nat): seq<Op>
    requires Consistent(u) && j < |u.modules|
  {
    if ops == [] then []
    else Script(u, ops[..|ops| - 1], j) + OpsOf(u, RunClient(u, ops[..|ops| - 1]), ops[|ops| - 1], j)
  }

  lemma {:induction false} RunBrings(u: Setup, ops: seq<ClientOp>, j: nat)
    requires Consistent(u) && j < |u.modules|
    ensures Brings(u.lib, u.nets[j], Start(u.modules[j]).session, Script(u, ops, j), RunClient(u, ops).sessions[j], Own(RunLog(u, ops), j))
    decreases |ops|
  {
    hide Brings, Apply, Start, LogOf, OpsOf, Own;
    var s := Start(u.modules[j]).session;
    if ops == [] {
      BringsNothing(u.lib, u.nets[j], s, Listening);
      NothingOwn(j);
    } else {
      var n := |ops| - 1;
      RunBrings(u, ops[..n], j);
      var c := RunClient(u, ops[..n]);
      ApplyBrings(u, c, ops[n], j);
      LogAppend(RunLog(u, ops[..n]), LogOf(u, c, ops[n]), j);
      BringsOn(u.lib, u.nets[j], s, Script(u, ops[..n], j), c.sessions[j], Own(RunLog(u, ops[..n]), j),
               OpsOf(u, c, ops[n], j), RunClient(u, ops).sessions[j], Own(LogOf(u, c, ops[n]), j));
    }
  }

  lemma NothingOwn(j: nat)
    ensures Own([], j) == []
  {
  }

  /**
    In every run of the client, what has arrived is what waits in the queue and what has been taken; and a message
    that was taken went to a connection that has its module, unless none owns it.
   */
  lemma {:induction false} NoMessageVanishes(u: Setup, ops: seq<ClientOp>)
    requires Consistent(u)
    ensures multiset(RunClient(u, ops).queue) + multiset(Items(RunLog(u, ops))) == multiset(RunArrivals(u, ops))
    ensures forall h :: h in RunLog(u, ops) ==>
              match h.to
              case Some(j) => j < |u.modules| && ModuleOf(h.item) in u.modules[j]
              case None => ModuleOf(h.item) !in u.owners
    decreases |ops|
  {
    hide Apply, LogOf, ArrivedIn, Items;
    if ops == [] {
      NothingHandled();
    } else {
      var n := |ops| - 1;
      NoMessageVanishes(u, ops[..n]);
      var c := RunClient(u, ops[..n]);
      ApplyConserves(u, c, ops[n]);
      LogAppend(RunLog(u, ops[..n]), LogOf(u, c, ops[n]), 0);
      RunSums(RunArrivals(u, ops[..n]), ArrivedIn(u, c, ops[n]), c.queue, Items(RunLog(u, ops[..n])),
              RunClient(u, ops).queue, Items(LogOf(u, c, ops[n])));
      LogIsRight(u, c, ops[n]);
    }
  }

  lemma NothingHandled()
    ensures Items([]) == []
  {
  }

  lemma RunSums(before: seq<ExternalItem>, arrived: seq<ExternalItem>, queue: seq<ExternalItem>, taken: seq<ExternalItem>,
                end: seq<ExternalItem>, more: seq<ExternalItem>)
    requires multiset(queue) + multiset(taken) == multiset(before)
    requires multiset(end) + multiset(more) == multiset(queue) + multiset(arrived)
    ensures multiset(end) + multiset(taken + more) == multiset(before + arrived)
  {
    assert multiset(taken + more) == multiset(taken) + multiset(more);
    assert multiset(before + arrived) == multiset(before) + multiset(arrived);
    assert multiset(end) + (multiset(taken) + multiset(more)) == (multiset(end) + multiset(more)) + multiset(taken);
    assert (multiset(queue) + multiset(arrived)) + multiset(taken) == (multiset(queue) + multiset(taken)) + multiset(arrived);
  }

  lemma QuietInOrder(u: Setup, c: Client, op: ClientOp)
    requires Fits(u, c.sessions) && Launched(u, c, op) == None
    ensures Items(LogOf(u, c, op)) == FirstTaken(u, c, op) && ArrivedIn(u, c, op) == ItemsOf(op)
    ensures FirstTaken(u, c, op) + Apply(u, c, op).queue == c.queue + ArrivedIn(u, c, op)
  {
    hide Launched, Route, Reset, Receive, HandledBy, Items, AskedBy;
    ApplyInHalves(u, c, op);
    HandledItems(u, |u.modules|, FirstTaken(u, c, op), 0);
    var first := HandledBy(u, |u.modules|, FirstTaken(u, c, op));
    assert first + [] == first && ItemsOf(op) + [] == ItemsOf(op);
    assert c.queue != [] ==> c.queue == [c.queue[0]] + c.queue[1..];
  }

  /** What has been taken since, and what still waits. */
  ghost predicate TakenAsTheyCame(u: Setup, before: seq<ClientOp>, after: seq<ClientOp>)
    requires Consistent(u)
  {
    var taken, arrived := Items(RunLog(u, before)), RunArrivals(u, before);
    && taken <= Items(RunLog(u, after)) && arrived <= RunArrivals(u, after)
    && Items(RunLog(u, after))[|taken|..] + RunClient(u, after).queue
       == RunClient(u, before).queue + RunArrivals(u, after)[|arrived|..]
  }

  lemma StillAsTheyCame(u: Setup, before: seq<ClientOp>, after: seq<ClientOp>, op: ClientOp)
    requires Consistent(u) && TakenAsTheyCame(u, before, after) && Launched(u, RunClient(u, after), op) == None
    ensures TakenAsTheyCame(u, before, after + [op])
  {
    hide Apply, LogOf, ArrivedIn, Items, Launched, FirstTaken, RunClient, HandledBy, ItemsOf;
    var c, all := RunClient(u, after), after + [op];
    assert all[..|after|] == after;
    RunClientNext(u, after, op);
    QuietInOrder(u, c, op);
    LogAppend(RunLog(u, after), LogOf(u, c, op), 0);
    SlicesOn(|Items(RunLog(u, before))|, Items(RunLog(u, after)), c.queue, FirstTaken(u, c, op), Apply(u, c, op).queue,
             RunClient(u, before).queue, |RunArrivals(u, before)|, RunArrivals(u, after), ArrivedIn(u, c, op));
  }

  lemma SlicesOn<T>(n: nat, taken: seq<T>, queue: seq<T>, first: seq<T>, rest: seq<T>, start: seq<T>, m: nat, arrived: seq<T>, more: seq<T>)
    requires n <= |taken| && m <= |arrived| && taken[n..] + queue == start + arrived[m..] && first + rest == queue + more
    ensures (taken + first)[n..] + rest == start + (arrived + more)[m..]
  {
    assert (taken + first)[n..] == taken[n..] + first && (arrived + more)[m..] == arrived[m..] + more;
    assert taken[n..] + first + rest == taken[n..] + (queue + more);
    assert taken[n..] + (queue + more) == start + arrived[m..] + more;
  }

  /** From any point of a run on, while no connection is started, messages are taken in the order in which they came. */
  lemma {:induction false} MessagesAreTakenInOrder(u: Setup, before: seq<ClientOp>, more: seq<ClientOp>)
    requires Consistent(u)
    requires forall i :: 0 <= i < |more| ==> Launched(u, RunClient(u, before + more[..i]), more[i]) == None
    ensures TakenAsTheyCame(u, before, before + more)
    decreases |more|
  {
    hide RunClient, RunLog, RunArrivals, Items, Launched, TakenAsTheyCame;
    if more == [] {
      assert before + more == before;
      AlreadyAsTheyCame(u, before);
    } else {
      var n := |more| - 1;
      assert forall i :: 0 <= i < n ==> more[..n][..i] == more[..i];
      MessagesAreTakenInOrder(u, before, more[..n]);
      StillAsTheyCame(u, before, before + more[..n], more[n]);
      assert before + more == (before + more[..n]) + [more[n]];
    }
  }

  lemma AlreadyAsTheyCame(u: Setup, ops: seq<ClientOp>)
    requires Consistent(u)
    ensures TakenAsTheyCame(u, ops, ops)
  {
    hide Items, RunLog, RunArrivals;
    assert Items(RunLog(u, ops))[|Items(RunLog(u, ops))|..] == [] && RunArrivals(u, ops)[|RunArrivals(u, ops)|..] == [];
    assert [] + RunClient(u, ops).queue == RunClient(u, ops).queue + [];
  }

  ghost predicate RightlyHandled(u: Setup, h: Handled) {
    match h.to
    case Some(j) => j < |u.modules| && ModuleOf(h.item) in u.modules[j]
    case None => ModuleOf(h.item) !in u.owners
  }

  lemma {:induction false} HandledIsRight(u: Setup, k: nat, items: seq<ExternalItem>)
    requires forall number :: number in u.owners ==> u.owners[number] < |u.modules| && number in u.modules[u.owners[number]]
    ensures forall h :: h in HandledBy(u, k, items) ==> RightlyHandled(u, h)
    decreases |items|
  {
    if items != [] {
      HandledIsRight(u, k, items[..|items| - 1]);
    }
  }

  lemma LogIsRight(u: Setup, c: Client, op: ClientOp)
    requires Fits(u, c.sessions)
    ensures forall h :: h in LogOf(u, c, op) ==> RightlyHandled(u, h)
  {
    hide HandledBy, Launched, FirstTaken, SequenceItems, RightlyHandled;
    HandledIsRight(u, |u.modules|, FirstTaken(u, c, op));
    match Launched(u, c, op)
    case Some(Launch(k, d, e)) => HandledIsRight(u, k, SequenceItems(u, k, d, e));
    case None =>
  }

  /**
    In every run of the client each connection goes through the operations of its script, which bring it exactly
    its own of the messages taken, in order; and the ledger of that run of operations accounts for every status
    the connection has handed to its channel, for its error aggregators, and for the commands it accepted.
   */
  lemma EveryConnectionKeepsItsLedger(u: Setup, ops: seq<ClientOp>, j: nat)
    requires Consistent(u) && j < |u.modules|
    ensures var script := Script(u, ops, j);
            var h := Run(u.lib, u.nets[j], u.modules[j], script);
            && h.session == RunClient(u, ops).sessions[j]
            && Brought(script) == Statuses(Own(RunLog(u, ops), j))
            && Kept(u.lib, u.modules[j], h)
  {
    hide Play, Run, Start, RunClient, RunLog, Script, Kept, Brought, Statuses, Own;
    RunBrings(u, ops, j);
    PlayIsRun(u.lib, u.nets[j], u.modules[j], Script(u, ops, j));
    RunKeeps(u.lib, u.nets[j], u.modules[j], Script(u, ops, j));
  }

  // Connect sequences in a run.

  lemma ModulesInRun(u: Setup, ops: seq<ClientOp>, j: nat)
    requires Consistent(u) && j < |u.modules|
    ensures RunClient(u, ops).sessions[j].errors.Keys == u.modules[j]
  {
    hide Run, RunClient, RunLog, Script, Conserved, Numbered, Obeyed, Handed, Brought, Statuses, Explained;
    EveryConnectionKeepsItsLedger(u, ops, j);
  }

  /** The devices are of modules of the connection, and of types that these support. */
  predicate Supplied(u: Setup, k: nat, devices: seq<DeviceId>) {
    k < |u.modules| && forall device :: device in devices ==>
      device.identity.moduleNumber in u.modules[k] && u.lib(device.identity.moduleNumber).supports(device.identity.deviceType)
  }

  /** Each device of the list is in the aggregator of its module, where the given histories have led to. */
  predicate Known(u: Setup, k: nat, devices: seq<DeviceId>, histories: int -> seq<AggregatorSpec.Op>) {
    k < |u.modules| && forall device :: device in devices ==>
      var number := device.identity.moduleNumber;
      number in u.modules[k] && device.identity in AggregatorSpec.Run(u.lib(number), histories(number)).devices
  }

  lemma KnownIsSupplied(u: Setup, k: nat, devices: seq<DeviceId>, histories: int -> seq<AggregatorSpec.Op>)
    requires Known(u, k, devices, histories)
    ensures Supplied(u, k, devices)
  {
    hide AggregatorSpec.Run;
    forall device | device in devices ensures u.lib(device.identity.moduleNumber).supports(device.identity.deviceType) {
      AggregatorSpec.RegisteredIsSupported(u.lib(device.identity.moduleNumber), histories(device.identity.moduleNumber));
    }
  }

  /**
    The connection is not initialized and has its modules; if the wait is not cut short, all devices of the list are
    registered when the attempt begins, and it succeeds on exactly the traces of the language.
   */
  ghost predicate DecidedByLanguage(u: Setup, c: Client, op: ClientOp)
    requires Fits(u, c.sessions) && Launched(u, c, op).Some?
  {
    var l := Launched(u, c, op).value;
    var k, e := l.connection, l.surroundings;
    && Idle(u, k, l.client.sessions[k], e.devices)
    && var prepared, after := Prepare(u, k, l.client, e), Apply(u, c, op).sessions[k];
       prepared.forced == [] ==>
         && (forall device :: device in e.devices ==> IsRegistered(prepared.client.sessions[k], device))
         && after.link == if InLanguage(u.nets[k], prepared.client.sessions[k], |e.devices|) then Connected else NotConnected
  }

  /** Whenever a run starts a connect sequence with the devices that the aggregators know, the language decides it. */
  lemma LaunchedOnTheLanguage(u: Setup, ops: seq<ClientOp>, op: ClientOp, histories: int -> seq<AggregatorSpec.Op>)
    requires Consistent(u) && Launched(u, RunClient(u, ops), op).Some?
    ensures var c := RunClient(u, ops);
            var l := Launched(u, c, op).value;
            Known(u, l.connection, l.surroundings.devices, histories) ==> DecidedByLanguage(u, c, op)
  {
    hide RunClient, DecidedByLanguage, Launched, Known, Supplied;
    var l := Launched(u, RunClient(u, ops), op).value;
    if Known(u, l.connection, l.surroundings.devices, histories) {
      KnownIsSupplied(u, l.connection, l.surroundings.devices, histories);
      SuppliedLaunch(u, ops, op);
    }
  }

  lemma SuppliedLaunch(u: Setup, ops: seq<ClientOp>, op: ClientOp)
    requires Consistent(u) && Launched(u, RunClient(u, ops), op).Some?
    requires var l := Launched(u, RunClient(u, ops), op).value; Supplied(u, l.connection, l.surroundings.devices)
    ensures DecidedByLanguage(u, RunClient(u, ops), op)
  {
    hide RunClient, Prepare, StartSequence, InLanguage, IsRegistered, Idle, Deliver;
    var c := RunClient(u, ops);
    var l := Launched(u, c, op).value;
    ModulesInRun(u, ops, l.connection);
    LaunchIsIdle(u, c, op);
    ApplyInHalves(u, c, op);
    PrepareRegisters(u, l.connection, l.client, l.surroundings);
    if Prepare(u, l.connection, l.client, l.surroundings).forced == [] {
      StartedExactlyOnTheLanguage(u, l.connection, l.client, l.surroundings);
    }
  }

  lemma LaunchIsIdle(u: Setup, c: Client, op: ClientOp)
    requires Fits(u, c.sessions) && Launched(u, c, op).Some?
    requires var l := Launched(u, c, op).value;
             && Supplied(u, l.connection, l.surroundings.devices)
             && c.sessions[l.connection].errors.Keys == u.modules[l.connection]
    ensures var l := Launched(u, c, op).value; Idle(u, l.connection, l.client.sessions[l.connection], l.surroundings.devices)
  {
    hide FeedAll, Feed;
    var l := Launched(u, c, op).value;
    var s := c.sessions[l.connection];
    if op.SendNext? {
      FillKeepsIdle(u, l.connection, s, c.queue[0].status, l.surroundings.devices);
    } else {
      FeedAllKeys(u.lib, s.errors, s.pending);
    }
  }

  function Others(events: seq<Event>): seq<ClientOp> {
    seq(|events|, i requires 0 <= i < |events| => Other(events[i]))
  }

  /** A round of the client's loop is a run of its operations. */
  function RoundOps(r: Round): seq<ClientOp> {
    Others(r.before) + [Reconnecting(r.answering)] + Others(r.between) + [SendNext(r.serving)]
  }

  lemma {:induction false} EventsAreRun(u: Setup, ops: seq<ClientOp>, events: seq<Event>)
    requires Consistent(u)
    ensures RunClient(u, ops + Others(events)) == HappenAll(u, RunClient(u, ops), events)
    decreases |events|
  {
    hide Happen, RunClient;
    if events == [] {
      assert ops + Others(events) == ops;
    } else {
      var n := |events| - 1;
      EventsAreRun(u, ops, events[..n]);
      RunClientNext(u, ops + Others(events[..n]), Other(events[n]));
      assert ops + Others(events) == (ops + Others(events[..n])) + [Other(events[n])];
    }
  }

  lemma RoundIsRun(u: Setup, ops: seq<ClientOp>, r: Round)
    requires Consistent(u)
    ensures RunClient(u, ops + RoundOps(r)) == HandleRound(u, RunClient(u, ops), r)
  {
    hide Answer, Serve, HappenAll, RunClient, Others;
    var answer, serve := Reconnecting(r.answering), SendNext(r.serving);
    EventsAreRun(u, ops, r.before);
    var early := ops + Others(r.before);
    RunClientNext(u, early, answer);
    EventsAreRun(u, early + [answer], r.between);
    var late := early + [answer] + Others(r.between);
    RunClientNext(u, late, serve);
    assert late + [serve] == ops + RoundOps(r);
  }

  lemma RunClientNext(u: Setup, ops: seq<ClientOp>, op: ClientOp)
    requires Consistent(u)
    ensures RunClient(u, ops + [op]) == Apply(u, RunClient(u, ops), op)
  {
    hide Apply;
    assert (ops + [op])[..|ops|] == ops;
  }
}
