/**
  The external client, as operations on values: one session for each external connection, and the queue of
  messages from the modules. What other threads add to the queue meanwhile is a parameter.
 */
module ClientSpec {
  import opened Common
  import opened SentMessages
  import opened SessionSpec

  /** The modules of each connection, and which connection the statuses of a module are sent on. */
  datatype Setup = Setup(lib: Library, nets: seq<Network>, modules: seq<set<int>>, owners: map<int, nat>)

  /** A request to drop a connection, and to start it again or leave it alone. */
  datatype Asked = Asked(connection: nat, again: bool)

  /** `timers` are the connections that will ask to be started again after a delay, `requests` what has been asked for. */
  datatype Client = Client(sessions: seq<Session>, queue: seq<ExternalItem>, timers: seq<nat>, requests: seq<Asked>)

  predicate Fits(u: Setup, sessions: seq<Session>) {
    && |sessions| == |u.nets| == |u.modules|
    && forall number :: number in u.owners ==> u.owners[number] < |u.modules| && number in u.modules[u.owners[number]]
  }

  function ModuleOf(item: ExternalItem): int {
    item.status.device.identity.moduleNumber
  }

  /** A message reaches its connection: it is sent, or absorbed when the connection is not up. */
  function Deliver(lib: Library, net: Network, s: Session, item: ExternalItem): Session {
    if s.link != Connected then Fill(lib, s, item.status)
    else SendStatus(lib, net, s, item.status, if item.disconnected then Disconnecting else Running, [])
  }

  /** A message goes to the connection of its module, if there is one; no connect sequence is started. */
  function Route(u: Setup, sessions: seq<Session>, item: ExternalItem): (after: seq<Session>)
    requires Fits(u, sessions)
    ensures Fits(u, after)
  {
    if ModuleOf(item) !in u.owners then sessions
    else
      var j := u.owners[ModuleOf(item)];
      sessions[j := Deliver(u.lib, u.nets[j], sessions[j], item)]
  }

  /** A message taken from the queue while connection `k` is being started. */
  function Take(u: Setup, k: nat, sessions: seq<Session>, item: ExternalItem): (after: seq<Session>)
    requires Fits(u, sessions) && k < |sessions|
    ensures Fits(u, after)
  {
    if ModuleOf(item) in u.modules[k] then sessions[k := Fill(u.lib, sessions[k], item.status)]
    else Route(u, sessions, item)
  }

  function TakeAll(u: Setup, k: nat, sessions: seq<Session>, items: seq<ExternalItem>): (after: seq<Session>)
    requires Fits(u, sessions) && k < |sessions|
    ensures Fits(u, after)
  {
    if items == [] then sessions else Take(u, k, TakeAll(u, k, sessions, items[..|items| - 1]), items[|items| - 1])
  }

  /** How many messages come before the first disconnect. */
  function Leading(queue: seq<ExternalItem>): (n: nat)
    ensures n <= |queue|
    ensures forall i :: 0 <= i < n ==> !queue[i].disconnected
    ensures n < |queue| ==> queue[n].disconnected
  {
    if queue == [] || queue[0].disconnected then 0 else 1 + Leading(queue[1..])
  }

  /** The drain at the start of a connect sequence. */
  function Drain(u: Setup, k: nat, c: Client): (after: Client)
    requires Fits(u, c.sessions) && k < |c.sessions|
    ensures Fits(u, after.sessions)
  {
    var n := Leading(c.queue);
    c.(sessions := TakeAll(u, k, c.sessions, c.queue[..n]), queue := c.queue[n..])
  }

  /** The wait for the devices whose aggregation was forced, with the messages taken out of the queue so far. */
  datatype Wait = Wait(client: Client, forced: seq<DeviceId>, taken: seq<ExternalItem>)

  /** One round of the wait: a message for another device of the connection goes back to the queue. */
  function WaitOnce(u: Setup, k: nat, w: Wait, arrivals: seq<ExternalItem>): (after: Wait)
    requires Fits(u, w.client.sessions) && k < |w.client.sessions|
    ensures Fits(u, after.client.sessions)
  {
    var sessions, queue := w.client.sessions, w.client.queue + arrivals;
    if w.forced == [] then w
    else if queue == [] then w.(client := w.client.(queue := queue))
    else
      var item, rest := queue[0], queue[1..];
      if ModuleOf(item) !in u.modules[k] then
        w.(client := w.client.(sessions := Route(u, sessions, item), queue := rest), taken := w.taken + [item])
      else if Listed(w.forced, item.status.device) then
        Wait(w.client.(sessions := sessions[k := Fill(u.lib, sessions[k], item.status)], queue := rest),
             Unlisted(w.forced, item.status.device), w.taken + [item])
      else
        w.(client := w.client.(queue := rest + [item]))
  }

  function WaitFor(u: Setup, k: nat, w: Wait, arrivals: seq<seq<ExternalItem>>): (after: Wait)
    requires Fits(u, w.client.sessions) && k < |w.client.sessions|
    ensures Fits(u, after.client.sessions)
  {
    if arrivals == [] then w
    else WaitOnce(u, k, WaitFor(u, k, w, arrivals[..|arrivals| - 1]), arrivals[|arrivals| - 1])
  }

  /** The drain beside a running connect attempt, between two pauses of it, and the messages it has taken. */
  datatype Turn = Turn(client: Client, taken: seq<ExternalItem>)

  /**
    One round of it: it stops at a disconnect, and when the connection is up. What it takes for the connection
    itself is taken in at the next pause.
   */
  function DrainOnce(u: Setup, k: nat, t: Turn, arrivals: seq<ExternalItem>): (after: Turn)
    requires Fits(u, t.client.sessions) && k < |t.client.sessions|
    ensures Fits(u, after.client.sessions)
  {
    var sessions, queue := t.client.sessions, t.client.queue + arrivals;
    if queue == [] || queue[0].disconnected || sessions[k].link == Connected then t.(client := t.client.(queue := queue))
    else
      var routed := if ModuleOf(queue[0]) in u.modules[k] then sessions else Route(u, sessions, queue[0]);
      Turn(t.client.(sessions := routed, queue := queue[1..]), t.taken + [queue[0]])
  }

  function DrainTurn(u: Setup, k: nat, c: Client, rounds: seq<seq<ExternalItem>>): (after: Turn)
    requires Fits(u, c.sessions) && k < |c.sessions|
    ensures Fits(u, after.client.sessions)
  {
    if rounds == [] then Turn(c, [])
    else DrainOnce(u, k, DrainTurn(u, k, c, rounds[..|rounds| - 1]), rounds[|rounds| - 1])
  }

  /** All turns of the drain, with what was taken in each of them. */
  datatype Beside = Beside(client: Client, groups: seq<seq<ExternalItem>>)

  function DrainBeside(u: Setup, k: nat, c: Client, turns: seq<seq<seq<ExternalItem>>>): (after: Beside)
    requires Fits(u, c.sessions) && k < |c.sessions|
    ensures Fits(u, after.client.sessions)
  {
    if turns == [] then Beside(c, [])
    else
      var before := DrainBeside(u, k, c, turns[..|turns| - 1]);
      var turn := DrainTurn(u, k, before.client, turns[|turns| - 1]);
      Beside(turn.client, before.groups + [turn.taken])
  }

  /** The statuses of the messages whose module is among the given ones. */
  function StatusesOf(modules: set<int>, items: seq<ExternalItem>): seq<DeviceStatus> {
    if items == [] then []
    else
      var item := items[|items| - 1];
      StatusesOf(modules, items[..|items| - 1]) + if ModuleOf(item) in modules then [item.status] else []
  }

  lemma NothingOf(modules: set<int>)
    ensures StatusesOf(modules, []) == []
  {
  }

  lemma StatusesOfNext(modules: set<int>, items: seq<ExternalItem>, item: ExternalItem)
    ensures StatusesOf(modules, items + [item])
         == StatusesOf(modules, items) + if ModuleOf(item) in modules then [item.status] else []
  {
    assert (items + [item])[..|items|] == items;
  }

  /** What the connection takes in at its pauses. */
  function Meanwhile(modules: set<int>, groups: seq<seq<ExternalItem>>): (ahead: seq<seq<DeviceStatus>>)
    ensures |ahead| == |groups|
  {
    seq(|groups|, i requires 0 <= i < |groups| => StatusesOf(modules, groups[i]))
  }

  /**
    What a connect sequence meets: the devices the modules know, what arrives in each round of the wait, and
    what arrives in each round of the turns of the drain beside the attempt. The wait ends early when the
    gateway is shut down, which is when there are no more rounds.
   */
  datatype Surroundings = Surroundings(
    devices: seq<DeviceId>,
    waiting: seq<seq<ExternalItem>>,
    connecting: seq<seq<seq<ExternalItem>>>)

  function WaitStart(u: Setup, k: nat, c: Client, devices: seq<DeviceId>): (w: Wait)
    requires Fits(u, c.sessions) && k < |c.sessions|
    ensures Fits(u, w.client.sessions)
  {
    var drained := Drain(u, k, c);
    Wait(drained, Unregistered(drained.sessions[k], devices), [])
  }

  /** The client right before the connection is initialized. */
  function Prepare(u: Setup, k: nat, c: Client, e: Surroundings): (w: Wait)
    requires Fits(u, c.sessions) && k < |c.sessions|
    ensures Fits(u, w.client.sessions)
  {
    var waited := WaitFor(u, k, WaitStart(u, k, c, e.devices), e.waiting);
    var sessions := waited.client.sessions;
    waited.(client := waited.client.(sessions := sessions[k := Flush(u.lib, sessions[k])]))
  }

  /** A connection that could not be started is tried again later, unless the gateway is shut down. */
  function StartSequence(u: Setup, k: nat, c: Client, e: Surroundings): (after: Client)
    requires Fits(u, c.sessions) && k < |c.sessions|
    ensures Fits(u, after.sessions)
  {
    var prepared := Prepare(u, k, c, e);
    var beside := DrainBeside(u, k, prepared.client, e.connecting);
    var client := beside.client;
    var r := Initialize(u.lib, u.nets[k], client.sessions[k], Meanwhile(u.modules[k], beside.groups), e.devices);
    client.(sessions := client.sessions[k := r.session],
            timers := if r.rc != Ok && prepared.forced == [] then client.timers + [k] else client.timers)
  }

  /** A message outside of a connect sequence may start one; `e` is what that of each connection would meet. */
  function Dispatch(u: Setup, c: Client, item: ExternalItem, e: nat -> Surroundings): (after: Client)
    requires Fits(u, c.sessions)
    ensures Fits(u, after.sessions)
  {
    var routed := c.(sessions := Route(u, c.sessions, item));
    if ModuleOf(item) !in u.owners then c
    else
      var j := u.owners[ModuleOf(item)];
      if c.sessions[j].link == NotInitialized then StartSequence(u, j, routed, e(j)) else routed
  }

  /** A connection that asked for it is dropped, and started again or left alone. */
  function Reconnect(u: Setup, c: Client, k: nat, again: bool, e: Surroundings): (after: Client)
    requires Fits(u, c.sessions) && k < |c.sessions|
    ensures Fits(u, after.sessions)
  {
    var dropped := c.(sessions := c.sessions[k := Reset(u.lib, c.sessions[k])]);
    if again then StartSequence(u, k, dropped, e) else dropped
  }

  // What other threads do between the steps of the client's loop.

  datatype Event =
    | Arrive(items: seq<ExternalItem>)
    | Receiving(connection: nat, rounds: nat)
    | TimerFires(timer: nat)
    | StatusTimesOut(connection: nat)

  /** What an event asks for: the receiving loop may end, a delay be over, or a status not have been acknowledged in time. */
  function AskedBy(u: Setup, c: Client, event: Event): seq<Asked>
    requires Fits(u, c.sessions)
  {
    match event
    case Arrive(_) => []
    case Receiving(k, rounds) =>
      if k >= |c.sessions| then []
      else (match Receive(u.lib, u.nets[k], c.sessions[k], rounds).dropped
            case Some(again) => [Asked(k, again)]
            case None => [])
    case TimerFires(i) => if i < |c.timers| then [Asked(c.timers[i], true)] else []
    case StatusTimesOut(k) => if k < |c.sessions| && c.sessions[k].pending != [] then [Asked(k, true)] else []
  }

  function Happen(u: Setup, c: Client, event: Event): (after: Client)
    requires Fits(u, c.sessions)
    ensures Fits(u, after.sessions)
  {
    var d := c.(requests := c.requests + AskedBy(u, c, event));
    match event
    case Arrive(items) => d.(queue := c.queue + items)
    case Receiving(k, rounds) =>
      if k < |c.sessions| then d.(sessions := c.sessions[k := Receive(u.lib, u.nets[k], c.sessions[k], rounds).session]) else d
    case TimerFires(i) => if i < |c.timers| then d.(timers := c.timers[..i] + c.timers[i + 1..]) else d
    case StatusTimesOut(_) => d
  }

  function HappenAll(u: Setup, c: Client, events: seq<Event>): (after: Client)
    requires Fits(u, c.sessions)
    ensures Fits(u, after.sessions)
  {
    if events == [] then c else Happen(u, HappenAll(u, c, events[..|events| - 1]), events[|events| - 1])
  }

  /** The oldest request is answered; `e` is what a connect sequence of each connection would meet. */
  function Answer(u: Setup, c: Client, e: nat -> Surroundings): (after: Client)
    requires Fits(u, c.sessions)
    ensures Fits(u, after.sessions)
  {
    if c.requests == [] then c
    else
      var asked, d := c.requests[0], c.(requests := c.requests[1..]);
      if asked.connection < |c.sessions| then Reconnect(u, d, asked.connection, asked.again, e(asked.connection)) else d
  }

  function Serve(u: Setup, c: Client, e: nat -> Surroundings): (after: Client)
    requires Fits(u, c.sessions)
    ensures Fits(u, after.sessions)
  {
    if c.queue == [] then c else Dispatch(u, c.(queue := c.queue[1..]), c.queue[0], e)
  }

  /** A round of the client's loop: a request is answered, if one is waiting, and then a message is served. */
  datatype Round = Round(
    before: seq<Event>, answering: nat -> Surroundings,
    between: seq<Event>, serving: nat -> Surroundings)

  function HandleRound(u: Setup, c: Client, r: Round): (after: Client)
    requires Fits(u, c.sessions)
    ensures Fits(u, after.sessions)
  {
    var answered := Answer(u, HappenAll(u, c, r.before), r.answering);
    Serve(u, HappenAll(u, answered, r.between), r.serving)
  }

  function HandleRounds(u: Setup, c: Client, rounds: seq<Round>): (after: Client)
    requires Fits(u, c.sessions)
    ensures Fits(u, after.sessions)
  {
    if rounds == [] then c else HandleRound(u, HandleRounds(u, c, rounds[..|rounds| - 1]), rounds[|rounds| - 1])
  }
}
