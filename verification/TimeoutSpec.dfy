/**
  The check after a timeout: an aggregator is drained device by device, while other threads force aggregations and
  timers fire, and devices that have been silent for too long are told to go.
 */
module TimeoutSpec {
  import opened Common
  import opened DeviceState
  import opened AggregatorSpec
  import opened HandlerSpec

  const STATUS_AGGREGATION_TIMEOUT_MAX_COUNT := 2

  /** The aggregator after a device has been drained, what was sent, and what other threads have done meanwhile. */
  datatype Drained = Drained(devices: Devices, sent: seq<Buffer>, ops: seq<Op>)

  /** What other threads do in their next turn. */
  function Turn(between: seq<seq<Op>>): seq<Op> {
    if between == [] then [] else between[0]
  }

  function LaterTurns(between: seq<seq<Op>>): seq<seq<Op>> {
    if between == [] then [] else between[1..]
  }

  /** `between[k]` is what other threads do before the k-th message is popped; after those they do nothing more. */
  function DrainDevice(m: Module, ds: Devices, device: DeviceId, between: seq<seq<Op>>): Drained
    decreases |between|, |Waiting(m, ds, device)|
  {
    var before := Interference(m, ds, Turn(between));
    DrainShrinks(m, before, device);
    match Oldest(m, before, device)
    case None => Drained(before, [], Turn(between))
    case Some(message) =>
      var more := DrainDevice(m, Pop(m, before, device), device, LaterTurns(between));
      Drained(more.devices, [message] + more.sent, Turn(between) + more.ops)
  }

  lemma PopNothing(m: Module, ds: Devices, device: DeviceId)
    ensures Oldest(m, ds, device) == None ==> Pop(m, ds, device) == ds
  {
  }

  /** One unfolding: what is sent first, and what then is left to do. */
  lemma DrainUnfolds(m: Module, ds: Devices, device: DeviceId, between: seq<seq<Op>>)
    ensures var r, before := DrainDevice(m, ds, device, between), Interference(m, ds, Turn(between));
            match Oldest(m, before, device)
            case None => r == Drained(before, [], Turn(between)) && Pop(m, before, device) == before
            case Some(message) =>
              var more := DrainDevice(m, Pop(m, before, device), device, LaterTurns(between));
              && r == Drained(more.devices, [message] + more.sent, Turn(between) + more.ops)
              && (between == [] ==> |Waiting(m, Pop(m, before, device), device)| < |Waiting(m, ds, device)|)
  {
    hide Interference, Pop, Oldest, Waiting;
    DrainShrinks(m, Interference(m, ds, Turn(between)), device);
    PopNothing(m, Interference(m, ds, Turn(between)), device);
    InterferenceNext(m, ds, []);
  }

  ghost predicate AllForeign(between: seq<seq<Op>>) {
    forall ops, op :: ops in between && op in ops ==> Foreign(op)
  }

  lemma ForeignTurn(between: seq<seq<Op>>)
    requires AllForeign(between)
    ensures forall op :: op in Turn(between) ==> Foreign(op)
    ensures AllForeign(LaterTurns(between))
  {
    assert forall g :: g in LaterTurns(between) ==> g in between;
  }

  /** The device is still registered and has its status; waiting are `messages`, with the status behind them some times. */
  ghost predicate Ticked(m: Module, ds: Devices, after: Devices, device: DeviceId, messages: seq<Buffer>, ticks: nat) {
    && Registered(m, after, device)
    && StatusOf(m, after, device) == StatusOf(m, ds, device)
    && Waiting(m, after, device) == messages + Repeat(StatusOf(m, ds, device), ticks)
  }

  /** More ticks. */
  lemma TickedOn(m: Module, ds: Devices, mid: Devices, after: Devices, device: DeviceId, messages: seq<Buffer>, early: nat, late: nat)
    requires Ticked(m, ds, mid, device, messages, early) && Ticked(m, mid, after, device, Waiting(m, mid, device), late)
    ensures Ticked(m, ds, after, device, messages, early + late)
  {
    hide Repeat, Waiting, Registered, StatusOf;
    var status := StatusOf(m, ds, device);
    RepeatSum(status, early, late);
    assert messages + Repeat(status, early) + Repeat(status, late) == messages + (Repeat(status, early) + Repeat(status, late));
  }

  lemma InterferenceTicks(m: Module, ds: Devices, ops: seq<Op>, device: DeviceId)
    requires Registered(m, ds, device) && forall op :: op in ops ==> Foreign(op)
    ensures Ticked(m, ds, Interference(m, ds, ops), device, Waiting(m, ds, device), Forces(ops, device.identity))
  {
    hide Interference, Repeat, Forces, Waiting, Registered, StatusOf;
    InterferenceQueues(m, ds, ops, device);
  }

  /**
    Draining a device sends what waited for it, oldest first, and then its status once for each aggregation
    forced meanwhile; nothing is left waiting.
   */
  lemma {:induction false} DrainSendsAll(m: Module, ds: Devices, device: DeviceId, between: seq<seq<Op>>)
    requires Registered(m, ds, device) && AllForeign(between)
    ensures var r := DrainDevice(m, ds, device, between);
            && r.sent == Waiting(m, ds, device) + Repeat(StatusOf(m, ds, device), Forces(r.ops, device.identity))
            && Ticked(m, ds, r.devices, device, [], 0)
    decreases |between|, |Waiting(m, ds, device)|
  {
    hide Interference, Foreign, Repeat, Forces, Pop, Oldest, DrainDevice, Waiting, Registered, AllForeign, StatusOf;
    var ops, id := Turn(between), device.identity;
    var before := Interference(m, ds, ops);
    var waiting, status, ticks := Waiting(m, ds, device), StatusOf(m, ds, device), Forces(ops, id);
    ForeignTurn(between);
    InterferenceTicks(m, ds, ops, device);
    DrainShrinks(m, before, device);
    DrainUnfolds(m, ds, device, between);
    RepeatSum(status, 0, 0);
    if Waiting(m, before, device) != [] {
      var popped, queue := Pop(m, before, device), Waiting(m, before, device);
      PopTakesOldest(m, before, device);
      DrainSendsAll(m, popped, device, LaterTurns(between));
      var more := DrainDevice(m, popped, device, LaterTurns(between));
      ForcesAppend(ops, more.ops, id);
      SentOn(waiting, status, ticks, queue, more.sent, Forces(more.ops, id));
    }
  }

  lemma SentOn(waiting: seq<Buffer>, status: Buffer, early: nat, queue: seq<Buffer>, sent: seq<Buffer>, late: nat)
    requires queue == waiting + Repeat(status, early) && queue != [] && sent == queue[1..] + Repeat(status, late)
    ensures [queue[0]] + sent == waiting + Repeat(status, early + late)
  {
    hide Repeat;
    RepeatSum(status, early, late);
    assert [queue[0]] + sent == queue + Repeat(status, late);
    assert queue + Repeat(status, late) == waiting + (Repeat(status, early) + Repeat(status, late));
  }

  lemma PopLeavesOthers(m: Module, ds: Devices, device: DeviceId, other: DeviceId)
    requires Registered(m, ds, other) && other.identity != device.identity
    ensures Ticked(m, ds, Pop(m, ds, device), other, Waiting(m, ds, other), 0)
  {
  }

  /** The other devices only gain ticks. */
  lemma {:induction false} DrainTicksOthers(m: Module, ds: Devices, device: DeviceId, between: seq<seq<Op>>, other: DeviceId)
    requires Registered(m, ds, other) && other.identity != device.identity && AllForeign(between)
    ensures var r := DrainDevice(m, ds, device, between);
            Ticked(m, ds, r.devices, other, Waiting(m, ds, other), Forces(r.ops, other.identity))
    decreases |between|, |Waiting(m, ds, device)|
  {
    hide Interference, Foreign, Repeat, Forces, Pop, Oldest, DrainDevice, Ticked, Waiting, Registered, AllForeign, StatusOf;
    var ops, id := Turn(between), other.identity;
    var before := Interference(m, ds, ops);
    ForeignTurn(between);
    InterferenceTicks(m, ds, ops, other);
    TickedIsRegistered(m, ds, before, other, Waiting(m, ds, other), Forces(ops, id));
    DrainShrinks(m, before, device);
    DrainUnfolds(m, ds, device, between);
    if Waiting(m, before, device) != [] {
      var popped := Pop(m, before, device);
      PopLeavesOthers(m, before, device, other);
      TickedIsRegistered(m, before, popped, other, Waiting(m, before, other), 0);
      TickedOn(m, ds, before, popped, other, Waiting(m, ds, other), Forces(ops, id), 0);
      DrainTicksOthers(m, popped, device, LaterTurns(between), other);
      var more := DrainDevice(m, popped, device, LaterTurns(between));
      ForcesAppend(ops, more.ops, id);
      TickedOn(m, ds, popped, more.devices, other, Waiting(m, ds, other), Forces(ops, id), Forces(more.ops, id));
    }
  }

  lemma TickedIsRegistered(m: Module, ds: Devices, after: Devices, device: DeviceId, messages: seq<Buffer>, ticks: nat)
    requires Ticked(m, ds, after, device, messages, ticks)
    ensures Registered(m, after, device)
  {
  }

  // Timeouts.

  function CountedOne(timeouts: map<Identity, nat>, op: Op): map<Identity, nat> {
    if op.ForceAggregation? && op.timed then timeouts[op.device.identity := Count(timeouts, op.device.identity) + 1] else timeouts
  }

  /** The timers that fire count a timeout each. */
  function Counted(timeouts: map<Identity, nat>, ops: seq<Op>): map<Identity, nat> {
    if ops == [] then timeouts else CountedOne(Counted(timeouts, ops[..|ops| - 1]), ops[|ops| - 1])
  }

  lemma {:induction false} CountedAppend(timeouts: map<Identity, nat>, ops: seq<Op>, more: seq<Op>)
    ensures Counted(timeouts, ops + more) == Counted(Counted(timeouts, ops), more)
    decreases |more|
  {
    var all := ops + more;
    if more == [] {
      assert all == ops;
    } else {
      assert all[..|all| - 1] == ops + more[..|more| - 1];
      CountedAppend(timeouts, ops, more[..|more| - 1]);
    }
  }

  /** How often the timer of a device has fired. */
  function Fired(ops: seq<Op>, id: Identity): nat {
    if ops == [] then 0
    else
      var op := ops[|ops| - 1];
      Fired(ops[..|ops| - 1], id) + if op.ForceAggregation? && op.timed && op.device.identity == id then 1 else 0
  }

  lemma {:induction false} CountedFires(timeouts: map<Identity, nat>, ops: seq<Op>, id: Identity)
    ensures Count(Counted(timeouts, ops), id) == Count(timeouts, id) + Fired(ops, id)
    decreases |ops|
  {
    if ops != [] {
      CountedFires(timeouts, ops[..|ops| - 1], id);
    }
  }

  /** A device that has not sent a status for two timeouts is told to go. */
  function ToldToGo(timeouts: map<Identity, nat>, device: DeviceId): seq<Reply> {
    if Count(timeouts, device.identity) >= STATUS_AGGREGATION_TIMEOUT_MAX_COUNT then [DisconnectReply(device)] else []
  }

  /** What other threads do while the devices are drained, and before the timeouts of each of them are looked at. */
  datatype Meanwhile = Meanwhile(between: nat -> seq<seq<Op>>, late: nat -> seq<Op>)

  ghost predicate AlwaysForeign(w: Meanwhile) {
    && (forall i: nat :: AllForeign(w.between(i)))
    && (forall i: nat, op :: op in w.late(i) ==> Foreign(op))
  }

  lemma ForeignAt(w: Meanwhile, i: nat)
    requires AlwaysForeign(w)
    ensures AllForeign(w.between(i)) && forall op :: op in w.late(i) ==> Foreign(op)
  {
  }

  /** The aggregator after a check, what was sent, who is told to go, and what other threads have done meanwhile. */
  datatype Checked = Checked(devices: Devices, sent: seq<ExternalItem>, told: seq<Reply>, ops: seq<Op>)

  /** The devices are drained one after the other. */
  function Check(m: Module, ds: Devices, timeouts: map<Identity, nat>, devices: seq<DeviceId>, w: Meanwhile): Checked {
    if devices == [] then Checked(ds, [], [], [])
    else
      var n := |devices| - 1;
      var before := Check(m, ds, timeouts, devices[..n], w);
      var r := DrainDevice(m, before.devices, devices[n], w.between(n));
      var ops := before.ops + r.ops + w.late(n);
      Checked(Interference(m, r.devices, w.late(n)), before.sent + Items(devices[n], r.sent),
              before.told + ToldToGo(Counted(timeouts, ops), devices[n]), ops)
  }

  /** What of some messages is of one device. */
  function SentFor(items: seq<ExternalItem>, id: Identity): seq<ExternalItem> {
    if items == [] then []
    else
      var item := items[|items| - 1];
      SentFor(items[..|items| - 1], id) + if item.status.device.identity == id then [item] else []
  }

  lemma {:induction false} SentForAppend(items: seq<ExternalItem>, more: seq<ExternalItem>, id: Identity)
    ensures SentFor(items + more, id) == SentFor(items, id) + SentFor(more, id)
    decreases |more|
  {
    var all := items + more;
    if more == [] {
      assert all == items;
    } else {
      assert all[..|all| - 1] == items + more[..|more| - 1];
      SentForAppend(items, more[..|more| - 1], id);
    }
  }

  lemma {:induction false} SentForItems(device: DeviceId, messages: seq<Buffer>, id: Identity)
    ensures SentFor(Items(device, messages), id) == if device.identity == id then Items(device, messages) else []
    decreases |messages|
  {
    if messages != [] {
      var n := |messages| - 1;
      SentForItems(device, messages[..n], id);
      assert Items(device, messages)[..n] == Items(device, messages[..n]);
      assert Items(device, messages) == Items(device, messages[..n]) + [Items(device, messages)[n]];
    }
  }

  lemma NothingSent(id: Identity)
    ensures SentFor([], id) == []
  {
  }

  lemma ForcesAppendTwo(ops: seq<Op>, more: seq<Op>, late: seq<Op>, id: Identity)
    ensures Forces(ops + more + late, id) == Forces(ops, id) + Forces(more, id) + Forces(late, id)
  {
    hide Forces;
    ForcesAppend(ops, more, id);
    ForcesAppend(ops + more, late, id);
  }

  /** Before its turn a device only gains ticks, and nothing of it is sent. */
  lemma {:induction false} NotYetDrained(m: Module, ds: Devices, timeouts: map<Identity, nat>, devices: seq<DeviceId>, w: Meanwhile,
                                         other: DeviceId)
    requires Registered(m, ds, other) && AlwaysForeign(w)
    requires forall i :: 0 <= i < |devices| ==> devices[i].identity != other.identity
    ensures var r := Check(m, ds, timeouts, devices, w);
            && Ticked(m, ds, r.devices, other, Waiting(m, ds, other), Forces(r.ops, other.identity))
            && SentFor(r.sent, other.identity) == []
    decreases |devices|
  {
    hide DrainDevice, Items, SentFor, Repeat, AllForeign, AlwaysForeign, Foreign, Ticked, Forces, Interference, Waiting, Counted,
         ToldToGo, Registered;
    var id, waiting := other.identity, Waiting(m, ds, other);
    if devices == [] {
      NothingSent(id);
      InterferenceTicks(m, ds, [], other);
      InterferenceNext(m, ds, []);
    } else {
      var n := |devices| - 1;
      NotYetDrained(m, ds, timeouts, devices[..n], w, other);
      var before := Check(m, ds, timeouts, devices[..n], w);
      TickedIsRegistered(m, ds, before.devices, other, waiting, Forces(before.ops, id));
      var r := DrainDevice(m, before.devices, devices[n], w.between(n));
      ForeignAt(w, n);
      DrainTicksOthers(m, before.devices, devices[n], w.between(n), other);
      TickedIsRegistered(m, before.devices, r.devices, other, Waiting(m, before.devices, other), Forces(r.ops, id));
      TickedOn(m, ds, before.devices, r.devices, other, waiting, Forces(before.ops, id), Forces(r.ops, id));
      InterferenceTicks(m, r.devices, w.late(n), other);
      TickedOn(m, ds, r.devices, Interference(m, r.devices, w.late(n)), other, waiting,
               Forces(before.ops, id) + Forces(r.ops, id), Forces(w.late(n), id));
      ForcesAppendTwo(before.ops, r.ops, w.late(n), id);
      SentForAppend(before.sent, Items(devices[n], r.sent), id);
      SentForItems(devices[n], r.sent, id);
    }
  }

  /** What other threads do from the beginning of a check until the i-th device is drained. */
  function UntilDrained(m: Module, ds: Devices, timeouts: map<Identity, nat>, devices: seq<DeviceId>, w: Meanwhile, i: nat): seq<Op>
    requires i < |devices|
  {
    var before := Check(m, ds, timeouts, devices[..i], w);
    before.ops + DrainDevice(m, before.devices, devices[i], w.between(i)).ops
  }

  /** What other threads do from the beginning of a check until the timeouts of the i-th device are looked at. */
  function UntilLookedAt(m: Module, ds: Devices, timeouts: map<Identity, nat>, devices: seq<DeviceId>, w: Meanwhile, i: nat): seq<Op>
    requires i < |devices|
  {
    UntilDrained(m, ds, timeouts, devices, w, i) + w.late(i)
  }

  lemma UntilShorter(m: Module, ds: Devices, timeouts: map<Identity, nat>, devices: seq<DeviceId>, w: Meanwhile, i: nat)
    requires i < |devices|
    ensures i < |devices| - 1 ==>
              && UntilDrained(m, ds, timeouts, devices[..|devices| - 1], w, i) == UntilDrained(m, ds, timeouts, devices, w, i)
              && UntilLookedAt(m, ds, timeouts, devices[..|devices| - 1], w, i) == UntilLookedAt(m, ds, timeouts, devices, w, i)
  {
    hide Check, DrainDevice;
    assert i < |devices| - 1 ==> devices[..|devices| - 1][..i] == devices[..i];
  }

  /**
    Of every registered device exactly what waited is sent, oldest first, and then its status once for each
    aggregation forced before the device was drained; whatever else the threads do between the pops.
   */
  lemma {:induction false} EachIsSentInFull(m: Module, ds: Devices, timeouts: map<Identity, nat>, devices: seq<DeviceId>,
                                            w: Meanwhile, i: nat)
    requires Distinct(devices) && i < |devices| && Registered(m, ds, devices[i]) && AlwaysForeign(w)
    ensures SentFor(Check(m, ds, timeouts, devices, w).sent, devices[i].identity)
         == Items(devices[i], Waiting(m, ds, devices[i]) + Repeat(StatusOf(m, ds, devices[i]),
                              Forces(UntilDrained(m, ds, timeouts, devices, w, i), devices[i].identity)))
    decreases |devices|
  {
    hide DrainDevice, Items, SentFor, Repeat, AllForeign, AlwaysForeign, Foreign, Ticked, Forces, Waiting, Registered, StatusOf,
         Check, UntilDrained;
    var n := |devices| - 1;
    var device, before := devices[i], Check(m, ds, timeouts, devices[..n], w);
    var r := DrainDevice(m, before.devices, devices[n], w.between(n));
    SentNext(m, ds, timeouts, devices, w, device.identity);
    UntilShorter(m, ds, timeouts, devices, w, i);
    if i < n {
      EachIsSentInFull(m, ds, timeouts, devices[..n], w, i);
    } else {
      NotYetDrained(m, ds, timeouts, devices[..n], w, device);
      ForeignAt(w, n);
      ForcesAppend(before.ops, r.ops, device.identity);
      SentBehind(m, ds, before.devices, device, w.between(n), Forces(before.ops, device.identity));
    }
  }

  /** What the last device adds to what is sent of an identity. */
  lemma SentNext(m: Module, ds: Devices, timeouts: map<Identity, nat>, devices: seq<DeviceId>, w: Meanwhile, id: Identity)
    requires devices != []
    ensures var n := |devices| - 1;
            var before := Check(m, ds, timeouts, devices[..n], w);
            var r, sent := DrainDevice(m, before.devices, devices[n], w.between(n)), SentFor(before.sent, id);
            && SentFor(Check(m, ds, timeouts, devices, w).sent, id)
            == (if devices[n].identity == id then sent + Items(devices[n], r.sent) else sent)
            && (sent == [] ==> sent + Items(devices[n], r.sent) == Items(devices[n], r.sent))
            && UntilDrained(m, ds, timeouts, devices, w, n) == before.ops + r.ops
  {
    hide DrainDevice, Items, SentFor, Counted, ToldToGo, Interference;
    var n := |devices| - 1;
    var before := Check(m, ds, timeouts, devices[..n], w);
    var r := DrainDevice(m, before.devices, devices[n], w.between(n));
    SentForAppend(before.sent, Items(devices[n], r.sent), id);
    SentForItems(devices[n], r.sent, id);
  }

  lemma SentBehind(m: Module, ds: Devices, mid: Devices, device: DeviceId, between: seq<seq<Op>>, early: nat)
    requires Ticked(m, ds, mid, device, Waiting(m, ds, device), early) && AllForeign(between)
    ensures var r := DrainDevice(m, mid, device, between);
            r.sent == Waiting(m, ds, device) + Repeat(StatusOf(m, ds, device), early + Forces(r.ops, device.identity))
  {
    hide DrainDevice, Repeat, AllForeign, Forces, Waiting, Registered, StatusOf;
    DrainSendsAll(m, mid, device, between);
    var waiting, status, late := Waiting(m, ds, device), StatusOf(m, ds, device), Forces(DrainDevice(m, mid, device, between).ops, device.identity);
    RepeatSum(status, early, late);
    assert waiting + Repeat(status, early) + Repeat(status, late) == waiting + (Repeat(status, early) + Repeat(status, late));
  }

  lemma ToldNext(m: Module, ds: Devices, timeouts: map<Identity, nat>, devices: seq<DeviceId>, w: Meanwhile)
    ensures devices == [] ==> Check(m, ds, timeouts, devices, w).told == []
    ensures devices != [] ==>
              var n := |devices| - 1;
              var seen := UntilLookedAt(m, ds, timeouts, devices, w, n);
              Check(m, ds, timeouts, devices, w).told == Check(m, ds, timeouts, devices[..n], w).told + ToldToGo(Counted(timeouts, seen), devices[n])
  {
    hide DrainDevice, Items, Interference, Counted, ToldToGo;
  }

  lemma ToldToGoWhen(timeouts: map<Identity, nat>, ops: seq<Op>, device: DeviceId, other: DeviceId)
    ensures multiset(ToldToGo(Counted(timeouts, ops), device))[DisconnectReply(other)]
         == if device == other && Count(timeouts, other.identity) + Fired(ops, other.identity) >= STATUS_AGGREGATION_TIMEOUT_MAX_COUNT
            then 1 else 0
  {
    hide Counted, Fired, Count;
    CountedFires(timeouts, ops, device.identity);
  }

  lemma ToldAppend(told: seq<Reply>, more: seq<Reply>, reply: Reply)
    ensures multiset(told + more)[reply] == multiset(told)[reply] + multiset(more)[reply]
  {
  }

  /**
    A device is told to go exactly when its timeouts, with those of its timer until it had been drained and they were
    looked at, are two or more; and then it is told once.
   */
  lemma {:induction false} ToldExactlyWhenSilent(m: Module, ds: Devices, timeouts: map<Identity, nat>, devices: seq<DeviceId>,
                                                 w: Meanwhile, i: nat)
    requires Distinct(devices) && i < |devices|
    ensures var id, seen := devices[i].identity, UntilLookedAt(m, ds, timeouts, devices, w, i);
            var silent := Count(timeouts, id) + Fired(seen, id) >= 2;
            multiset(Check(m, ds, timeouts, devices, w).told)[DisconnectReply(devices[i])] == if silent then 1 else 0
    decreases |devices|
  {
    hide Check, Counted, Fired, Count, ToldToGo, UntilLookedAt;
    var n := |devices| - 1;
    var seen := UntilLookedAt(m, ds, timeouts, devices, w, n);
    ToldNext(m, ds, timeouts, devices, w);
    ToldToGoWhen(timeouts, seen, devices[n], devices[i]);
    ToldAppend(Check(m, ds, timeouts, devices[..n], w).told, ToldToGo(Counted(timeouts, seen), devices[n]), DisconnectReply(devices[i]));
    if i < n {
      ToldExactlyWhenSilent(m, ds, timeouts, devices[..n], w, i);
      UntilShorter(m, ds, timeouts, devices, w, i);
    } else {
      NotYetTold(m, ds, timeouts, devices[..n], w, devices[n]);
    }
  }

  lemma {:induction false} NotYetTold(m: Module, ds: Devices, timeouts: map<Identity, nat>, devices: seq<DeviceId>, w: Meanwhile,
                                      other: DeviceId)
    requires forall i :: 0 <= i < |devices| ==> devices[i].identity != other.identity
    ensures multiset(Check(m, ds, timeouts, devices, w).told)[DisconnectReply(other)] == 0
    decreases |devices|
  {
    hide Check, Counted, Fired, Count, ToldToGo, UntilLookedAt;
    ToldNext(m, ds, timeouts, devices, w);
    if devices != [] {
      var n := |devices| - 1;
      var seen := UntilLookedAt(m, ds, timeouts, devices, w, n);
      NotYetTold(m, ds, timeouts, devices[..n], w, other);
      ToldToGoWhen(timeouts, seen, devices[n], other);
      ToldAppend(Check(m, ds, timeouts, devices[..n], w).told, ToldToGo(Counted(timeouts, seen), devices[n]), DisconnectReply(other));
    }
  }
}
