/**
  What handling a status or a disconnect comes to when other threads take the aggregator's lock in between: others
  may force aggregations and move commands.
 */
module HandlerSpec {
  import opened Common
  import opened DeviceState
  import opened AggregatorSpec

  datatype ConnectVerdict = ConnectOk | ModuleNotSupported | TypeNotSupported

  datatype Reply =
    | ConnectReply(device: DeviceId, verdict: ConnectVerdict)
    | CommandReply(device: DeviceId, command: Buffer)
    | DisconnectReply(device: DeviceId)

  /** A status is handled when the module accepts it and the aggregator can take it in. */
  predicate IsHandled(m: Module, ds: Devices, status: DeviceStatus) {
    m.statusValid(status.data, status.device.identity.deviceType) && AddOutcome(m, ds, status.device, status.data).Queued?
  }

  /** What the client is answered with; `None` leaves it without a response. */
  function Answer(m: Module, d: Device, device: DeviceId, status: Buffer): Option<Reply> {
    match CommandOutcome(m, d, status)
    case Ok => (match Generate(m, d, status) case Some(command) => Some(CommandReply(device, command)) case None => None)
    case NoMessageAvailable => Some(CommandReply(device, []))
    case _ => None
  }

  lemma AnswerIs(m: Module, d: Device, device: DeviceId, status: Buffer, rc: Rc, command: Buffer)
    requires rc == CommandOutcome(m, d, status) && (rc == Ok ==> Generate(m, d, status) == Some(command))
    ensures Answer(m, d, device, status) == if rc == Ok then Some(CommandReply(device, command))
                                            else if rc == NoMessageAvailable then Some(CommandReply(device, []))
                                            else None
  {
  }

  /** What is pushed to a device whose command has come. */
  function Forwarded(m: Module, d: Device, device: DeviceId): seq<Reply> {
    match Generate(m, d, d.status)
    case Some(command) => [CommandReply(device, command)]
    case None => []
  }

  lemma ForwardedIs(m: Module, d: Device, device: DeviceId, rc: Rc, command: Buffer)
    requires rc == CommandOutcome(m, d, d.status) && (rc == Ok ==> Generate(m, d, d.status) == Some(command))
    ensures Forwarded(m, d, device) == if rc == Ok then [CommandReply(device, command)] else []
  {
  }

  /** What other threads may do to an aggregator while a status is handled: nothing pops or erases. */
  predicate Foreign(op: Op) {
    op.ForceAggregation? || op.UpdateCommand? || op.TakeCommand?
  }

  /** And while a device goes: an erasure that was posted before may be done. */
  predicate Outside(op: Op) {
    Foreign(op) || op.EraseDevice?
  }

  function Interference(m: Module, ds: Devices, ops: seq<Op>): Devices {
    if ops == [] then ds else Apply(m, State(Interference(m, ds, ops[..|ops| - 1]), map[]), ops[|ops| - 1]).devices
  }

  /** How often aggregation is forced on one device. */
  function Forces(ops: seq<Op>, id: Identity): nat {
    if ops == [] then 0
    else
      var op := ops[|ops| - 1];
      Forces(ops[..|ops| - 1], id) + if op.ForceAggregation? && op.device.identity == id then 1 else 0
  }

  function Repeat(b: Buffer, n: nat): (s: seq<Buffer>)
    ensures |s| == n
  {
    seq(n, _ => b)
  }

  lemma RepeatSum(b: Buffer, x: nat, y: nat)
    ensures Repeat(b, x) + Repeat(b, y) == Repeat(b, x + y)
    ensures Repeat(b, 0) == []
    ensures Repeat(b, 1) == [b]
  {
  }

  lemma {:induction false} ForcesAppend(ops: seq<Op>, more: seq<Op>, id: Identity)
    ensures Forces(ops + more, id) == Forces(ops, id) + Forces(more, id)
    decreases |more|
  {
    var all := ops + more;
    if more == [] {
      assert all == ops;
    } else {
      assert all[..|all| - 1] == ops + more[..|more| - 1];
      ForcesAppend(ops, more[..|more| - 1], id);
    }
  }

  lemma ForcesNone(id: Identity)
    ensures Forces([], id) == 0
  {
  }

  lemma OutsideAppends(m: Module, s: State, op: Op, id: Identity)
    requires Outside(op) && op != EraseDevice(id) && id in s.devices && m.supports(id.deviceType)
    ensures var after := Apply(m, s, op).devices;
            && id in after
            && after[id].status == s.devices[id].status
            && after[id].id == s.devices[id].id
            && after[id].messages == s.devices[id].messages + Repeat(s.devices[id].status, Forces([op], id))
  {
    hide Repeat, Fetch, Update;
    var status := s.devices[id].status;
    RepeatSum(status, 0, 0);
    UpdateQueues(m, s.devices, op, id);
    FetchQueues(m, s.devices, op, id);
    ForcesOnce(op, id);
  }

  lemma ForcesOnce(op: Op, id: Identity)
    ensures Forces([op], id) == if op.ForceAggregation? && op.device.identity == id then 1 else 0
  {
    assert [op][..0] == [];
  }

  lemma UpdateQueues(m: Module, ds: Devices, op: Op, id: Identity)
    requires id in ds
    ensures op.UpdateCommand? ==>
              var after := Update(m, ds, op.device, op.command);
              && id in after && after[id].id == ds[id].id
              && after[id].status == ds[id].status && after[id].messages == ds[id].messages
  {
  }

  lemma FetchQueues(m: Module, ds: Devices, op: Op, id: Identity)
    requires id in ds
    ensures op.TakeCommand? ==>
              var after := Fetch(m, ds, op.device, op.status);
              && id in after && after[id].id == ds[id].id
              && after[id].status == ds[id].status && after[id].messages == ds[id].messages
  {
  }

  lemma InterferenceNext(m: Module, ds: Devices, ops: seq<Op>)
    ensures Interference(m, ds, []) == ds
    ensures ops != [] ==>
              Interference(m, ds, ops) == Apply(m, State(Interference(m, ds, ops[..|ops| - 1]), map[]), ops[|ops| - 1]).devices
  {
  }

  predicate Erased(ops: seq<Op>, id: Identity) {
    EraseDevice(id) in ops
  }

  /** Unless the device is erased, its current status is queued behind what is waiting, and nothing else happens to it. */
  lemma {:induction false} InterferenceAppends(m: Module, ds: Devices, ops: seq<Op>, id: Identity)
    requires forall op :: op in ops ==> Outside(op)
    requires id in ds && m.supports(id.deviceType) && !Erased(ops, id)
    ensures var after := Interference(m, ds, ops);
            && id in after
            && after[id].status == ds[id].status
            && after[id].id == ds[id].id
            && after[id].messages == ds[id].messages + Repeat(ds[id].status, Forces(ops, id))
    decreases |ops|
  {
    hide Interference, Repeat, Forces, Foreign, Apply;
    var status := ds[id].status;
    RepeatSum(status, 0, 0);
    InterferenceNext(m, ds, ops);
    if ops == [] {
      ForcesNone(id);
    } else {
      var n := |ops| - 1;
      var before := Interference(m, ds, ops[..n]);
      InterferenceAppends(m, ds, ops[..n], id);
      OutsideAppends(m, State(before, map[]), ops[n], id);
      var f, g := Forces(ops[..n], id), Forces([ops[n]], id);
      assert ops == ops[..n] + [ops[n]];
      ForcesAppend(ops[..n], [ops[n]], id);
      RepeatSum(status, f, g);
      assert ds[id].messages + Repeat(status, f) + Repeat(status, g) == ds[id].messages + (Repeat(status, f) + Repeat(status, g));
    }
  }

  /** Interference only queues the current status behind what is waiting. */
  lemma InterferenceOnlyAppends(m: Module, ds: Devices, ops: seq<Op>, id: Identity)
    requires forall op :: op in ops ==> Foreign(op)
    requires id in ds && m.supports(id.deviceType)
    ensures var after := Interference(m, ds, ops);
            && id in after
            && after[id].status == ds[id].status
            && after[id].id == ds[id].id
            && after[id].messages == ds[id].messages + Repeat(ds[id].status, Forces(ops, id))
  {
    hide Interference, Repeat, Forces;
    InterferenceAppends(m, ds, ops, id);
  }

  lemma AbsentStays(m: Module, s: State, op: Op, id: Identity)
    requires Outside(op) && (id !in s.devices || op == EraseDevice(id))
    ensures id !in Apply(m, s, op).devices
  {
  }

  /** Nobody registers a device again meanwhile. */
  lemma {:induction false} InterferenceErases(m: Module, ds: Devices, ops: seq<Op>, id: Identity)
    requires (forall op :: op in ops ==> Outside(op)) && (id !in ds || Erased(ops, id))
    ensures id !in Interference(m, ds, ops)
    decreases |ops|
  {
    hide Apply, Outside;
    if ops != [] {
      var n := |ops| - 1;
      if id !in ds || Erased(ops[..n], id) {
        InterferenceErases(m, ds, ops[..n], id);
      } else {
        assert ops == ops[..n] + [ops[n]];
      }
      AbsentStays(m, State(Interference(m, ds, ops[..n]), map[]), ops[n], id);
    }
  }

  function Items(device: DeviceId, messages: seq<Buffer>): seq<ExternalItem> {
    seq(|messages|, i requires 0 <= i < |messages| => ExternalItem(false, DeviceStatus(device, messages[i])))
  }

  function Waiting(m: Module, ds: Devices, device: DeviceId): seq<Buffer> {
    if Registered(m, ds, device) then ds[device.identity].messages else []
  }

  function StatusOf(m: Module, ds: Devices, device: DeviceId): Buffer {
    if Registered(m, ds, device) then ds[device.identity].status else []
  }

  lemma DrainShrinks(m: Module, ds: Devices, device: DeviceId)
    ensures Oldest(m, ds, device) == (if Waiting(m, ds, device) == [] then None else Some(Waiting(m, ds, device)[0]))
    ensures Waiting(m, ds, device) != [] ==> Waiting(m, Pop(m, ds, device), device) == Waiting(m, ds, device)[1..]
  {
  }

  lemma PopTakesOldest(m: Module, ds: Devices, device: DeviceId)
    requires Registered(m, ds, device)
    ensures Registered(m, Pop(m, ds, device), device)
    ensures StatusOf(m, Pop(m, ds, device), device) == StatusOf(m, ds, device)
  {
  }

  // What a disconnect leaves unsent.

  /** The erasures that are still to be done. */
  function Pending(pending: seq<Identity>, ops: seq<Op>): seq<Identity> {
    if ops == [] then pending
    else
      var before, op := Pending(pending, ops[..|ops| - 1]), ops[|ops| - 1];
      if op.EraseDevice? then Without(before, op.identity) else before
  }

  /** What other threads may do while a device goes. They erase only what is posted. */
  ghost predicate Possible(pending: seq<Identity>, ops: seq<Op>) {
    && (forall op :: op in ops ==> Outside(op))
    && forall i :: 0 <= i < |ops| && ops[i].EraseDevice? ==> ops[i].identity in Pending(pending, ops[..i])
  }

  ghost predicate AllOutside(between: nat -> seq<Op>) {
    forall k, op :: op in between(k) ==> Outside(op)
  }

  /** What a departing device finds when its oldest message is popped: its status has been queued before. */
  function Forced(m: Module, ds: Devices, device: DeviceId, between: nat -> seq<Op>): Devices {
    Interference(m, Force(m, Interference(m, ds, between(0)), device), between(1))
  }

  /** The aggregator after a device has gone, what was sent as its disconnect, and the erasures that are posted. */
  datatype Departure = Departure(devices: Devices, sent: Option<Buffer>, pending: seq<Identity>)

  /**
    A registered device goes, with what other threads do before each of the three steps. When an erasure comes before
    the first of them, it ends there; when one comes before the second, an empty status is sent.
   */
  function Depart(m: Module, ds: Devices, pending: seq<Identity>, device: DeviceId, between: nat -> seq<Op>): Departure {
    var first := Interference(m, ds, between(0));
    if !Registered(m, first, device) then Departure(first, None, Pending(pending, between(0)))
    else
      var second := Forced(m, ds, device, between);
      var third := Interference(m, Pop(m, second, device), between(2));
      var left := Pending(Pending(Pending(pending, between(0)), between(1)), between(2));
      Departure(Clear(m, third, device),
                Some(match Oldest(m, second, device) case Some(oldest) => oldest case None => []),
                if Registered(m, third, device) then left + [device.identity] else left)
  }

  /** What other threads do until a device is erased, if it is. */
  function Until(ops: seq<Op>, id: Identity): seq<Op> {
    if !Erased(ops, id) then ops else Until(ops[..|ops| - 1], id)
  }

  lemma {:induction false} UntilErased(ops: seq<Op>, id: Identity)
    ensures Until(ops, id) <= ops && !Erased(Until(ops, id), id)
    ensures Erased(ops, id) ==> Until(ops, id) + [EraseDevice(id)] <= ops
    decreases |ops|
  {
    if Erased(ops, id) {
      var n := |ops| - 1;
      assert ops == ops[..n] + [ops[n]];
      UntilErased(ops[..n], id);
    }
  }

  /** The aggregator when the messages of a departing device are dropped, by its clearing or by an erasure before that. */
  function Dropping(m: Module, ds: Devices, device: DeviceId, between: nat -> seq<Op>): Devices {
    Interference(m, Pop(m, Forced(m, ds, device, between), device), Until(between(2), device.identity))
  }

  /** How often aggregation is forced on a departing device before its messages are dropped. */
  function ForcesMeanwhile(between: nat -> seq<Op>, id: Identity): nat {
    Forces(between(0), id) + Forces(between(1), id) + Forces(Until(between(2), id), id)
  }

  lemma InterferenceQueues(m: Module, ds: Devices, ops: seq<Op>, device: DeviceId)
    requires Registered(m, ds, device) && (forall op :: op in ops ==> Outside(op)) && !Erased(ops, device.identity)
    ensures var after := Interference(m, ds, ops);
            && Registered(m, after, device) && StatusOf(m, after, device) == StatusOf(m, ds, device)
            && Waiting(m, after, device) == Waiting(m, ds, device) + Repeat(StatusOf(m, ds, device), Forces(ops, device.identity))
  {
    hide Interference, Foreign, Repeat, Forces;
    InterferenceAppends(m, ds, ops, device.identity);
  }

  lemma ForceQueues(m: Module, ds: Devices, device: DeviceId)
    requires Registered(m, ds, device)
    ensures var after := Force(m, ds, device);
            && Registered(m, after, device) && StatusOf(m, after, device) == StatusOf(m, ds, device)
            && Waiting(m, after, device) == Waiting(m, ds, device) + [StatusOf(m, ds, device)]
  {
  }

  lemma RepeatIsMiddle(waiting: seq<Buffer>, b: Buffer, early: nat, mid: nat, late: nat)
    ensures var queue := waiting + Repeat(b, early) + [b] + Repeat(b, mid);
            && queue[0] == (waiting + [b])[0]
            && queue[1..] + Repeat(b, late) == (waiting + [b])[1..] + Repeat(b, early + mid + late)
  {
  }

  lemma OutsideAt(between: nat -> seq<Op>, k: nat, id: Identity)
    requires AllOutside(between)
    ensures forall op :: op in between(k) ==> Outside(op)
    ensures forall op :: op in Until(between(k), id) ==> Outside(op)
  {
    UntilErased(between(k), id);
  }

  /** Whether the device lasts until its oldest message is popped: no erasure has come before. */
  predicate Lasts(between: nat -> seq<Op>, id: Identity) {
    !Erased(between(0), id) && !Erased(between(1), id)
  }

  /** Everything queued for a device is sent when it goes: its oldest message is, and then none is left to be dropped. */
  predicate SentInFull(m: Module, ds: Devices, device: DeviceId, between: nat -> seq<Op>) {
    Oldest(m, Forced(m, ds, device, between), device).Some? && Waiting(m, Dropping(m, ds, device, between), device) == []
  }

  /**
    A device that goes has its status queued, and the oldest message sent, unless it is erased before. What then still
    waits is dropped. It is nothing exactly when nothing waited before and nothing has been forced meanwhile.
   */
  lemma OnlyOldestIsSent(m: Module, ds: Devices, pending: seq<Identity>, device: DeviceId, between: nat -> seq<Op>)
    requires Registered(m, ds, device) && AllOutside(between)
    ensures var waiting, status, id := Waiting(m, ds, device), StatusOf(m, ds, device), device.identity;
            var forces, sent := ForcesMeanwhile(between, id), Depart(m, ds, pending, device, between).sent;
            && (Erased(between(0), id) ==> sent == None)
            && (!Erased(between(0), id) && Erased(between(1), id) ==> sent == Some([]))
            && (Lasts(between, id) ==>
                  && sent == Some((waiting + [status])[0])
                  && Waiting(m, Dropping(m, ds, device, between), device) == (waiting + [status])[1..] + Repeat(status, forces))
            && (SentInFull(m, ds, device, between) <==> Lasts(between, id) && waiting == [] && forces == 0)
  {
    hide Interference, Force, Pop, Oldest, Outside, Repeat, Forces, Waiting, Registered, StatusOf, Clear, Pending, Erased;
    var id := device.identity;
    OutsideAt(between, 0, id);
    if Erased(between(0), id) {
      ErasedBefore(m, ds, device, between);
    } else if Erased(between(1), id) {
      ErasedMeanwhile(m, ds, device, between);
    } else {
      LastsUntilPopped(m, ds, device, between);
    }
  }

  lemma ErasedBefore(m: Module, ds: Devices, device: DeviceId, between: nat -> seq<Op>)
    requires AllOutside(between) && Erased(between(0), device.identity)
    ensures !Registered(m, Interference(m, ds, between(0)), device)
    ensures Oldest(m, Forced(m, ds, device, between), device) == None
  {
    hide Interference, Erased, Outside;
    InterferenceErases(m, ds, between(0), device.identity);
    var first := Interference(m, ds, between(0));
    InterferenceErases(m, Force(m, first, device), between(1), device.identity);
  }

  lemma ErasedMeanwhile(m: Module, ds: Devices, device: DeviceId, between: nat -> seq<Op>)
    requires Registered(m, ds, device) && AllOutside(between)
    requires !Erased(between(0), device.identity) && Erased(between(1), device.identity)
    ensures Registered(m, Interference(m, ds, between(0)), device)
    ensures Oldest(m, Forced(m, ds, device, between), device) == None
  {
    hide Interference, Erased, Outside, Force, Waiting, StatusOf, Repeat, Forces;
    InterferenceQueues(m, ds, between(0), device);
    InterferenceErases(m, Force(m, Interference(m, ds, between(0)), device), between(1), device.identity);
  }

  lemma LastsUntilPopped(m: Module, ds: Devices, device: DeviceId, between: nat -> seq<Op>)
    requires Registered(m, ds, device) && AllOutside(between) && Lasts(between, device.identity)
    ensures var queue, status := Waiting(m, ds, device) + [StatusOf(m, ds, device)], StatusOf(m, ds, device);
            && Registered(m, Interference(m, ds, between(0)), device)
            && Oldest(m, Forced(m, ds, device, between), device) == Some(queue[0])
            && Waiting(m, Dropping(m, ds, device, between), device)
               == queue[1..] + Repeat(status, ForcesMeanwhile(between, device.identity))
  {
    hide Interference, Force, Pop, Oldest, Outside, Repeat, Forces, Waiting, Registered, StatusOf, Erased, Until, AllOutside;
    var id := device.identity;
    var first, second := Interference(m, ds, between(0)), Forced(m, ds, device, between);
    OutsideAt(between, 0, id);
    OutsideAt(between, 1, id);
    OutsideAt(between, 2, id);
    UntilErased(between(2), id);
    InterferenceQueues(m, ds, between(0), device);
    ForceQueues(m, first, device);
    InterferenceQueues(m, Force(m, first, device), between(1), device);
    DrainShrinks(m, second, device);
    PopTakesOldest(m, second, device);
    InterferenceQueues(m, Pop(m, second, device), Until(between(2), id), device);
    RepeatIsMiddle(Waiting(m, ds, device), StatusOf(m, ds, device), Forces(between(0), id), Forces(between(1), id),
                   Forces(Until(between(2), id), id));
  }

  lemma ClearEmpties(m: Module, ds: Devices, device: DeviceId)
    ensures Registered(m, Clear(m, ds, device), device) <==> Registered(m, ds, device)
    ensures Waiting(m, Clear(m, ds, device), device) == []
  {
  }

  /** Once a device has gone nothing waits for it; unless it is erased meanwhile it is still registered, and its erasure posted. */
  lemma GoneIsEmpty(m: Module, ds: Devices, pending: seq<Identity>, device: DeviceId, between: nat -> seq<Op>)
    requires Registered(m, ds, device) && AllOutside(between)
    ensures var r := Depart(m, ds, pending, device, between);
            && Waiting(m, r.devices, device) == []
            && (Lasts(between, device.identity) && !Erased(between(2), device.identity) ==>
                  && Registered(m, r.devices, device)
                  && r.pending != [] && r.pending[|r.pending| - 1] == device.identity)
  {
    hide Interference, Force, Pop, Oldest, Outside, Repeat, Forces, Waiting, Registered, StatusOf, Clear, Pending, Erased, AllOutside;
    var first, second := Interference(m, ds, between(0)), Forced(m, ds, device, between);
    var third := Interference(m, Pop(m, second, device), between(2));
    ClearEmpties(m, third, device);
    NothingWaits(m, first, device);
    if Lasts(between, device.identity) && !Erased(between(2), device.identity) {
      OutsideAt(between, 0, device.identity);
      OutsideAt(between, 1, device.identity);
      OutsideAt(between, 2, device.identity);
      InterferenceQueues(m, ds, between(0), device);
      ForceQueues(m, first, device);
      InterferenceQueues(m, Force(m, first, device), between(1), device);
      PopTakesOldest(m, second, device);
      InterferenceQueues(m, Pop(m, second, device), between(2), device);
    }
  }

  lemma NothingWaits(m: Module, ds: Devices, device: DeviceId)
    ensures !Registered(m, ds, device) ==> Waiting(m, ds, device) == []
  {
  }

  /** Nothing waits for a device that goes, and its timer fires once between the forced aggregation and the pop. */
  lemma TickedStatusIsDropped(m: Module, ds: Devices, device: DeviceId)
    requires Registered(m, ds, device) && Waiting(m, ds, device) == []
    ensures var between := (k: nat) => if k == 1 then [ForceAggregation(device, true)] else [];
            && Depart(m, ds, [], device, between).sent == Some(StatusOf(m, ds, device))
            && Waiting(m, Dropping(m, ds, device, between), device) == [StatusOf(m, ds, device)]
            && Waiting(m, Depart(m, ds, [], device, between).devices, device) == []
  {
    hide Repeat, Forces, Forced, Dropping, Depart, Oldest;
    var between := (k: nat) => if k == 1 then [ForceAggregation(device, true)] else [];
    OnlyOldestIsSent(m, ds, [], device, between);
    GoneIsEmpty(m, ds, [], device, between);
    ForcesNone(device.identity);
    ForcesOnce(ForceAggregation(device, true), device.identity);
    RepeatSum(StatusOf(m, ds, device), 1, 0);
  }

  /**
    A device that has gone and come again before its erasure is done, and goes once more: when the erasure comes right
    after it has been found registered, nothing at all is sent; when it comes before the pop, an empty status.
   */
  lemma ErasedDisconnect(m: Module, ds: Devices, device: DeviceId, early: bool)
    requires Registered(m, ds, device)
    ensures var between := (k: nat) => if k == (if early then 0 else 1) then [EraseDevice(device.identity)] else [];
            && Possible([device.identity], between(if early then 0 else 1))
            && Depart(m, ds, [device.identity], device, between).sent == if early then None else Some([])
  {
    hide Repeat, Forces, Forced, Dropping, Depart, Oldest;
    var between := (k: nat) => if k == (if early then 0 else 1) then [EraseDevice(device.identity)] else [];
    OnlyOldestIsSent(m, ds, [device.identity], device, between);
    assert between(if early then 0 else 1)[0] == EraseDevice(device.identity);
  }
}
