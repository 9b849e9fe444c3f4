/**
  Every interleaving of the internal server: the connections' own threads, the socket events and the
  thread that listens to the module handler. One step is what happens under one lock.
 */
module ServerRuns {
  import opened Common
  import opened ConnectionTable

  /**
    Where a connection's handler is: between messages, waiting for the module handler's response,
    past a refusal or an error but not yet cleaned up, or gone.
   */
  datatype Phase = Idle | Waiting | Failing | Closed

  datatype Conn = Conn(device: Option<DeviceId>, ready: bool, phase: Phase)

  /** Connections are numbered in the order they were accepted. */
  datatype Server = Server(table: Table<nat>, conns: seq<Conn>)

  datatype Step =
    | Accept
    | ConnectMessage(c: nat, device: DeviceId)
    | StatusMessage(c: nat, status: DeviceStatus)
    | BadMessage(c: nat)
    | ReadError(c: nat)
    | Wake(c: nat)
    | ResponseTimeout(c: nat)
    | Cleanup(c: nat)
    | Response(device: DeviceId)
    | DisconnectRequest(device: DeviceId)

  const INITIAL := Server(Table(map[], []), [])

  predicate InPhase(s: Server, c: nat, phase: Phase) {
    c < |s.conns| && s.conns[c].phase == phase
  }

  predicate Enabled(s: Server, step: Step) {
    match step
    case Accept => true
    case ConnectMessage(c, _) => InPhase(s, c, Idle)
    case StatusMessage(c, _) => InPhase(s, c, Idle)
    case BadMessage(c) => InPhase(s, c, Idle)
    case ReadError(c) => InPhase(s, c, Idle)
    case Wake(c) => InPhase(s, c, Waiting) && s.conns[c].ready
    case ResponseTimeout(c) => InPhase(s, c, Waiting) && !s.conns[c].ready
    case Cleanup(c) => InPhase(s, c, Failing)
    case Response(_) => true
    case DisconnectRequest(_) => true
  }

  function Update(s: Server, c: nat, conn: Conn): Server
    requires c < |s.conns|
  {
    s.(conns := s.conns[c := conn])
  }

  /** The holder of `device` may go on, if the response is for it. */
  function Release(s: Server, device: DeviceId): Server {
    if device.identity in s.table.slots && s.table.slots[device.identity].device.priority == device.priority
       && s.table.slots[device.identity].conn < |s.conns| then
      var c := s.table.slots[device.identity].conn;
      Update(s, c, s.conns[c].(ready := true))
    else
      s
  }

  function Apply(s: Server, step: Step): Server
    requires Enabled(s, step)
  {
    match step
    case Accept => s.(conns := s.conns + [Conn(None, false, Idle)])
    case ConnectMessage(c, device) =>
      var conn := s.conns[c];
      if conn.ready || Judge(s.table, device) != Admitted then
        Update(s, c, conn.(phase := Failing))
      else
        Update(s.(table := Admit(s.table, c, device)), c, conn.(device := Some(device), phase := Waiting))
    case StatusMessage(c, status) =>
      var conn := s.conns[c];
      if !conn.ready then
        Update(s, c, conn.(phase := Failing))
      else
        Update(s.(table := s.table.(log := s.table.log + [StatusReceived(status)])), c, conn.(ready := false, phase := Waiting))
    case BadMessage(c) => Update(s, c, s.conns[c].(phase := Failing))
    case ReadError(c) => Update(s, c, s.conns[c].(phase := Failing))
    case Wake(c) => Update(s, c, s.conns[c].(phase := Idle))
    case ResponseTimeout(c) => Update(s, c, s.conns[c].(phase := Failing))
    case Cleanup(c) =>
      var gone := Update(s, c, s.conns[c].(phase := Closed));
      (match s.conns[c].device
       case None => gone
       case Some(device) => gone.(table := Drop(s.table, device)))
    case Response(device) => Release(s, device)
    case DisconnectRequest(device) =>
      if device.identity in s.table.slots then
        s.(table := Drop(s.table, s.table.slots[device.identity].device))
      else
        s
  }

  /** A slot is held by a connection that was admitted with this very identification and has not been closed. */
  ghost predicate SlotsValid(s: Server) {
    forall id :: id in s.table.slots ==>
      var slot := s.table.slots[id];
      && slot.conn < |s.conns|
      && s.conns[slot.conn].device == Some(slot.device)
      && s.conns[slot.conn].phase != Closed
  }

  /** A connection about to start a message has no identity and is not ready, or has one and is ready. */
  predicate PhaseValid(conn: Conn) {
    match conn.phase
    case Idle => conn.device.Some? <==> conn.ready
    case Waiting => conn.device.Some?
    case _ => conn.device == None ==> !conn.ready
  }

  ghost predicate Inv(s: Server) {
    && TableInv(s.table)
    && SlotsValid(s)
    && forall c :: c in s.conns ==> PhaseValid(c)
  }

  lemma StepKeepsTable(s: Server, step: Step)
    requires Inv(s) && Enabled(s, step)
    ensures TableInv(Apply(s, step).table)
  {
    hide TableInv, Admit, Drop;
    match step
    case ConnectMessage(c, device) => AdmitKeepsInv(s.table, c, device);
    case StatusMessage(_, status) => StatusKeepsInv(s.table, status);
    case Cleanup(c) =>
      if s.conns[c].device.Some? {
        DropKeepsInv(s.table, s.conns[c].device.value);
      }
    case DisconnectRequest(device) =>
      if device.identity in s.table.slots {
        DropKeepsInv(s.table, s.table.slots[device.identity].device);
      }
    case _ =>
  }

  lemma StepKeepsSlots(s: Server, step: Step)
    requires Inv(s) && Enabled(s, step)
    ensures SlotsValid(Apply(s, step))
  {
    hide Bracketed, Net, Admit, TableInv, PhaseValid;
    match step
    case ConnectMessage(c, device) =>
      ConnectKeepsSlots(s, c, device);
    case Cleanup(c) =>
      TableIsKeyed(s.table);
      CleanupKeepsSlots(s, c);
    case _ =>
  }

  lemma TableIsKeyed(t: Table<nat>)
    requires TableInv(t)
    ensures Keyed(t)
  {
  }

  /** A connection that is admitted holds nothing yet. */
  lemma ConnectKeepsSlots(s: Server, c: nat, device: DeviceId)
    requires Inv(s) && Enabled(s, ConnectMessage(c, device))
    ensures SlotsValid(Apply(s, ConnectMessage(c, device)))
  {
    hide Bracketed, Net, Admit;
    var conn, t := s.conns[c], Admit(s.table, c, device);
    assert PhaseValid(conn);
    if !conn.ready && Judge(s.table, device) == Admitted {
      forall id | id in t.slots
        ensures if id == device.identity then t.slots[id] == Slot(c, device)
                else id in s.table.slots && t.slots[id] == s.table.slots[id] && t.slots[id].conn != c
      {
        AdmitLocally(s.table, c, device, id);
      }
    }
  }

  lemma CleanupKeepsSlots(s: Server, c: nat)
    requires SlotsValid(s) && Keyed(s.table) && InPhase(s, c, Failing)
    ensures SlotsValid(Apply(s, Cleanup(c)))
  {
  }

  lemma StepKeepsPhases(s: Server, step: Step)
    requires Inv(s) && Enabled(s, step)
    ensures forall c :: c in Apply(s, step).conns ==> PhaseValid(c)
  {
    hide TableInv, Admit, Drop;
    var t := Apply(s, step);
    forall k | 0 <= k < |t.conns| ensures PhaseValid(t.conns[k]) {
      assert k < |s.conns| ==> s.conns[k] in s.conns;
    }
  }

  /** Steps that are not enabled do not happen, so any list of steps is a run. */
  function Run(steps: seq<Step>): Server {
    if steps == [] then
      INITIAL
    else
      var s := Run(steps[..|steps| - 1]);
      var step := steps[|steps| - 1];
      if Enabled(s, step) then Apply(s, step) else s
  }

  lemma {:induction false} RunKeepsInv(steps: seq<Step>)
    ensures Inv(Run(steps))
    decreases |steps|
  {
    hide Apply, Enabled;
    if steps == [] {
      InitialInv();
    } else {
      var s := Run(steps[..|steps| - 1]);
      var step := steps[|steps| - 1];
      RunKeepsInv(steps[..|steps| - 1]);
      if Enabled(s, step) {
        StepKeepsTable(s, step);
        StepKeepsSlots(s, step);
        StepKeepsPhases(s, step);
      }
    }
  }

  lemma InitialInv()
    ensures Inv(INITIAL)
  {
    var log: seq<Event> := [];
    assert forall id :: Net(log, id) == 0;
    assert log[..0] == log;
  }

  /**
    What the module handler sees of an identity, in every interleaving: connects and disconnects alternate,
    and the last connect is open exactly while a connection holds the identity.
   */
  lemma ConnectsAndDisconnectsBracket(steps: seq<Step>, id: Identity)
    ensures var t := Run(steps).table;
            && Bracketed(t.log, id)
            && Net(t.log, id) == (if id in t.slots then 1 else 0)
  {
    RunKeepsInv(steps);
  }

  /** So the second connect of an identity can only follow its disconnect. */
  lemma NoConnectWhileConnected(steps: seq<Step>, i: nat, j: nat, id: Identity)
    requires var log := Run(steps).table.log;
             i < j < |log| && log[i].Connected? && log[i].device.identity == id && log[j].Connected? && log[j].device.identity == id
    ensures exists k :: i < k < j && Weight(Run(steps).table.log[k], id) == -1
  {
    RunKeepsInv(steps);
    BracketsAlternate(Run(steps).table.log, id, i, j);
  }

  /** What `HandleConnection` relies on: whoever starts a message has no identity, or has one and is ready. */
  lemma MessageStartsIdentifiedAndReady(steps: seq<Step>, c: nat)
    requires InPhase(Run(steps), c, Idle)
    ensures Run(steps).conns[c].device.Some? <==> Run(steps).conns[c].ready
  {
    RunKeepsInv(steps);
    assert Run(steps).conns[c] in Run(steps).conns;
  }

  /** Active identities are held by different connections, none of which has been closed. */
  lemma HoldersAreDistinct(steps: seq<Step>, a: Identity, b: Identity)
    requires a in Run(steps).table.slots && b in Run(steps).table.slots && a != b
    ensures var s := Run(steps);
            && s.table.slots[a].conn != s.table.slots[b].conn
            && s.table.slots[a].conn < |s.conns|
            && s.conns[s.table.slots[a].conn].phase != Closed
  {
    RunKeepsInv(steps);
  }

  /** A connection takes an identity at most once, and keeps it. */
  lemma IdentityIsFinal(steps: seq<Step>, step: Step, c: nat)
    requires c < |Run(steps).conns|
    ensures c < |Run(steps + [step]).conns|
    ensures Run(steps).conns[c].device.Some? ==> Run(steps + [step]).conns[c].device == Run(steps).conns[c].device
  {
    var s := Run(steps);
    RunSnoc(steps, step);
    RunKeepsInv(steps);
    assert s.conns[c] in s.conns;
  }

  /**
    A connection that no longer holds its identity can still evict a later one when it is cleaned up: it
    does exactly when the two have the same priority.
   */
  lemma StaleEviction(steps: seq<Step>, c: nat, device: DeviceId)
    requires InPhase(Run(steps), c, Failing)
    requires Run(steps).conns[c].device == Some(device)
    requires device.identity in Run(steps).table.slots && Run(steps).table.slots[device.identity].conn != c
    ensures var holder := Run(steps).table.slots[device.identity];
            device.identity !in Run(steps + [Cleanup(c)]).table.slots <==> holder.device.priority == device.priority
  {
    RunSnoc(steps, Cleanup(c));
  }

  /** ...and such a run exists: 0 is replaced by 1, 1 goes, 2 takes the slot, and then 0 is cleaned up. */
  function StaleSteps(low: DeviceId, high: DeviceId): seq<Step> {
    [Accept, Accept, Accept, ConnectMessage(0, low), ConnectMessage(1, high), ResponseTimeout(1),
     Cleanup(1), ConnectMessage(2, low), ResponseTimeout(0), Cleanup(0)]
  }

  lemma StaleEvictionHappens(low: DeviceId, high: DeviceId)
    requires low.identity == high.identity && high.priority < low.priority
    ensures var steps := StaleSteps(low, high);
            && Holds(Run(steps[..9]), 2, low)
            && low.identity !in Run(steps).table.slots
  {
    hide Run;
    var steps := StaleSteps(low, high);
    StaleRunSucceeds(low, high);
    RunNext(steps, 8);
    RunNext(steps, 9);
    assert steps[..10] == steps;
  }

  lemma StaleRunReplaces(low: DeviceId, high: DeviceId)
    requires low.identity == high.identity && high.priority < low.priority
    ensures var s := Run(StaleSteps(low, high)[..5]);
            && s.conns == [Conn(Some(low), false, Waiting), Conn(Some(high), false, Waiting), Conn(None, false, Idle)]
            && Holds(s, 1, high)
  {
    var steps := StaleSteps(low, high);
    assert Run(steps[..0]) == INITIAL;
    hide Run;
    RunNext(steps, 0);
    RunNext(steps, 1);
    RunNext(steps, 2);
    var none := Conn(None, false, Idle);
    assert Run(steps[..3]).conns == [none, none, none] && Run(steps[..3]).table.slots == map[];
    RunNext(steps, 3);
    assert Run(steps[..4]).conns == [Conn(Some(low), false, Waiting), none, none] && Holds(Run(steps[..4]), 0, low);
    RunNext(steps, 4);
  }

  lemma StaleRunSucceeds(low: DeviceId, high: DeviceId)
    requires low.identity == high.identity && high.priority < low.priority
    ensures var s := Run(StaleSteps(low, high)[..8]);
            var a := Conn(Some(low), false, Waiting);
            && s.conns == [a, Conn(Some(high), false, Closed), a]
            && Holds(s, 2, low)
  {
    hide Run;
    var steps := StaleSteps(low, high);
    StaleRunReplaces(low, high);
    RunNext(steps, 5);
    RunNext(steps, 6);
    assert low.identity !in Run(steps[..7]).table.slots;
    RunNext(steps, 7);
  }

  /**
    A status of a ready connection is passed on whichever device it names, and whether or not that is connected.
    What the module handler sees lies between a connect of the named device and its disconnect exactly when some
    connection holds the identity of that device.
   */
  lemma StatusBetweenBrackets(steps: seq<Step>, c: nat, status: DeviceStatus)
    requires InPhase(Run(steps), c, Idle) && Run(steps).conns[c].ready
    ensures var before, after, id := Run(steps).table, Run(steps + [StatusMessage(c, status)]).table, status.device.identity;
            && after.log == before.log + [StatusReceived(status)]
            && (Net(before.log, id) == 1 <==> id in before.slots)
            && (Net(before.log, id) == 0 <==> id !in before.slots)
  {
    hide Run, Net;
    RunSnoc(steps, StatusMessage(c, status));
    ConnectsAndDisconnectsBracket(steps, status.device.identity);
  }

  /** A device is connected and answered, and its client may send the next message. */
  function ConnectedSteps(device: DeviceId): seq<Step> {
    [Accept, ConnectMessage(0, device), Response(device), Wake(0)]
  }

  lemma ConnectedRun(device: DeviceId)
    ensures var s := Run(ConnectedSteps(device));
            && s.conns == [Conn(Some(device), true, Idle)]
            && s.table == Table(map[device.identity := Slot(0, device)], [Connected(device)])
  {
    hide Run;
    var steps := ConnectedSteps(device);
    RunNothing();
    assert steps[..0] == [] && steps[..4] == steps;
    RunNext(steps, 0);
    RunNext(steps, 1);
    assert Run(steps[..2]).conns == [Conn(Some(device), false, Waiting)];
    RunNext(steps, 2);
    RunNext(steps, 3);
  }

  /** The module handler disconnects it, and it sends one more status. */
  lemma StatusAfterDisconnect(device: DeviceId, status: DeviceStatus)
    ensures Run(ConnectedSteps(device) + [DisconnectRequest(device)] + [StatusMessage(0, status)]).table.log
         == [Connected(device), Disconnected(device), StatusReceived(status)]
  {
    hide Run;
    ConnectedRun(device);
    RunSnoc(ConnectedSteps(device), DisconnectRequest(device));
    RunSnoc(ConnectedSteps(device) + [DisconnectRequest(device)], StatusMessage(0, status));
  }

  /** Or it sends a status of another device, which was never connected. */
  lemma StatusOfAnother(device: DeviceId, status: DeviceStatus)
    requires status.device.identity != device.identity
    ensures var s := Run(ConnectedSteps(device) + [StatusMessage(0, status)]);
            && device.identity in s.table.slots
            && s.table.log == [Connected(device), StatusReceived(status)]
            && Net(s.table.log, status.device.identity) == 0
  {
    hide Run;
    ConnectedRun(device);
    RunSnoc(ConnectedSteps(device), StatusMessage(0, status));
    ConnectsAndDisconnectsBracket(ConnectedSteps(device) + [StatusMessage(0, status)], status.device.identity);
  }

  lemma RunNothing()
    ensures Run([]) == INITIAL
  {
  }

  ghost predicate Holds(s: Server, c: nat, device: DeviceId) {
    device.identity in s.table.slots && s.table.slots[device.identity] == Slot(c, device)
  }

  lemma RunNext(steps: seq<Step>, k: nat)
    requires k < |steps|
    ensures Run(steps[..k + 1]) == if Enabled(Run(steps[..k]), steps[k]) then Apply(Run(steps[..k]), steps[k]) else Run(steps[..k])
  {
    assert steps[..k + 1] == steps[..k] + [steps[k]];
    RunSnoc(steps[..k], steps[k]);
  }

  lemma RunSnoc(steps: seq<Step>, step: Step)
    ensures Run(steps + [step]) == if Enabled(Run(steps), step) then Apply(Run(steps), step) else Run(steps)
  {
    assert (steps + [step])[..|steps|] == steps;
  }
}
