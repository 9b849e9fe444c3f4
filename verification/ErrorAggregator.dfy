/** What could not be delivered, folded into one error message for each device of a module. */
module ErrorAggregator {
  import opened Common

  /** An unallocated error or status is an empty one. */
  datatype ErrorState = ErrorState(errorMessage: Buffer, lastStatus: Buffer)

  type Errors = map<Identity, ErrorState>

  datatype Rc = Ok | NotOk | DeviceNotSupported | DeviceNotRegistered | NoMessageAvailable

  const BLANK := ErrorState([], [])

  function StateOf(es: Errors, id: Identity): ErrorState {
    if id in es then es[id] else BLANK
  }

  function AddError(m: Module, es: Errors, device: DeviceId, status: Buffer): Errors {
    var id := device.identity;
    if !m.supports(id.deviceType) then es
    else
      var error := StateOf(es, id).errorMessage;
      match m.aggregateError(error, status, id.deviceType)
      case Some(aggregated) => es[id := ErrorState(aggregated, status)]
      case None => es[id := ErrorState(error, status)]
  }

  function ClearAll(es: Errors): Errors {
    map id | id in es :: BLANK
  }

  class Aggregator {
    const m: Module
    var devices: Errors

    constructor (m: Module)
      ensures this.m == m && devices == map[]
    {
      this.m, devices := m, map[];
    }

    method AddStatus(status: Buffer, device: DeviceId) returns (rc: Rc)
      modifies this
      ensures devices == AddError(m, old(devices), device, status)
      ensures rc == if !m.supports(device.identity.deviceType) then DeviceNotSupported
                    else if m.aggregateError(StateOf(old(devices), device.identity).errorMessage, status, device.identity.deviceType) == None then NotOk
                    else Ok
    {
      var id := device.identity;
      if !m.supports(id.deviceType) {
        return DeviceNotSupported;
      }
      if id !in devices {
        devices := devices[id := BLANK];
      }
      devices := devices[id := devices[id].(lastStatus := status)];
      var aggregated := m.aggregateError(devices[id].errorMessage, status, id.deviceType);
      if aggregated == None {
        return NotOk;
      }
      devices := devices[id := devices[id].(errorMessage := aggregated.value)];
      return Ok;
    }

    method GetLastStatus(device: DeviceId) returns (rc: Rc, status: Buffer)
      ensures rc == if device.identity in devices then Ok else DeviceNotRegistered
      ensures status == StateOf(devices, device.identity).lastStatus
    {
      if device.identity !in devices {
        return DeviceNotRegistered, [];
      }
      return Ok, devices[device.identity].lastStatus;
    }

    method GetError(device: DeviceId) returns (rc: Rc, error: Buffer)
      ensures rc == if device.identity !in devices then DeviceNotRegistered
                    else if devices[device.identity].errorMessage == [] then NoMessageAvailable
                    else Ok
      ensures error == StateOf(devices, device.identity).errorMessage
    {
      if device.identity !in devices {
        return DeviceNotRegistered, [];
      }
      if devices[device.identity].errorMessage == [] {
        return NoMessageAvailable, [];
      }
      return Ok, devices[device.identity].errorMessage;
    }

    method Clear()
      modifies this
      ensures devices == ClearAll(old(devices))
    {
      var todo := devices.Keys;
      while todo != {}
        invariant todo <= devices.Keys == old(devices).Keys
        invariant forall id :: id in devices ==> devices[id] == if id in todo then old(devices)[id] else BLANK
        decreases |todo|
      {
        var id :| id in todo;
        devices := devices[id := BLANK];
        todo := todo - {id};
      }
    }
  }

  // Histories.

  datatype Op = Added(device: DeviceId, status: Buffer) | Cleared

  function Apply(m: Module, es: Errors, op: Op): Errors {
    match op
    case Added(device, status) => AddError(m, es, device, status)
    case Cleared => ClearAll(es)
  }

  function Run(m: Module, ops: seq<Op>): Errors {
    if ops == [] then map[] else Apply(m, Run(m, ops[..|ops| - 1]), ops[|ops| - 1])
  }

  /** The statuses of one device since the last clear. */
  function Since(ops: seq<Op>, id: Identity): seq<Buffer> {
    if ops == [] then []
    else match ops[|ops| - 1]
      case Cleared => []
      case Added(device, status) =>
        var before := Since(ops[..|ops| - 1], id);
        if device.identity == id then before + [status] else before
  }

  /** The left fold of the module's error aggregation; a failed step is skipped. */
  function Fold(m: Module, deviceType: uint32, statuses: seq<Buffer>): Buffer {
    if statuses == [] then []
    else
      var before := Fold(m, deviceType, statuses[..|statuses| - 1]);
      match m.aggregateError(before, statuses[|statuses| - 1], deviceType)
      case Some(aggregated) => aggregated
      case None => before
  }

  ghost predicate EverAdded(ops: seq<Op>, id: Identity) {
    exists k :: 0 <= k < |ops| && ops[k].Added? && ops[k].device.identity == id
  }

  /** What an aggregator tells of a device, given whether it was ever added and its statuses since the last clear. */
  ghost predicate Shows(m: Module, es: Errors, id: Identity, ever: bool, statuses: seq<Buffer>) {
    && (id in es <==> m.supports(id.deviceType) && ever)
    && (!ever ==> statuses == [])
    && (id in es ==>
          es[id] == if statuses == [] then BLANK
                    else ErrorState(Fold(m, id.deviceType, statuses), statuses[|statuses| - 1]))
  }

  predicate Adds(op: Op, id: Identity) {
    op.Added? && op.device.identity == id
  }

  lemma FoldNext(m: Module, deviceType: uint32, statuses: seq<Buffer>, status: Buffer)
    ensures Fold(m, deviceType, statuses + [status])
         == match m.aggregateError(Fold(m, deviceType, statuses), status, deviceType)
            case Some(aggregated) => aggregated
            case None => Fold(m, deviceType, statuses)
  {
    assert (statuses + [status])[..|statuses|] == statuses;
  }

  lemma ShowsAdded(m: Module, es: Errors, device: DeviceId, status: Buffer, ever: bool, statuses: seq<Buffer>)
    requires Shows(m, es, device.identity, ever, statuses)
    ensures Shows(m, AddError(m, es, device, status), device.identity, true, statuses + [status])
  {
    hide Fold;
    FoldNext(m, device.identity.deviceType, statuses, status);
    assert Fold(m, device.identity.deviceType, []) == [] by { FoldNothing(m, device.identity.deviceType); }
  }

  lemma FoldNothing(m: Module, deviceType: uint32)
    ensures Fold(m, deviceType, []) == []
  {
  }

  lemma ShowsStep(m: Module, es: Errors, op: Op, id: Identity, ever: bool, statuses: seq<Buffer>)
    requires Shows(m, es, id, ever, statuses)
    ensures Shows(m, Apply(m, es, op), id, ever || Adds(op, id),
                  if op.Cleared? then [] else if Adds(op, id) then statuses + [op.status] else statuses)
  {
    hide Fold;
    if Adds(op, id) {
      ShowsAdded(m, es, op.device, op.status, ever, statuses);
    }
  }

  lemma EverAddedNext(ops: seq<Op>, op: Op, id: Identity)
    ensures EverAdded(ops + [op], id) <==> EverAdded(ops, id) || Adds(op, id)
  {
    var all := ops + [op];
    assert forall k :: 0 <= k < |ops| ==> all[k] == ops[k];
    assert all[|ops|] == op;
  }

  /**
    A device is registered by its first status and stays so; its error is the fold of the statuses since
    the last clear, and its last status the latest of them.
   */
  lemma {:induction false} ErrorsAreFolds(m: Module, ops: seq<Op>, id: Identity)
    ensures id in Run(m, ops) <==> m.supports(id.deviceType) && EverAdded(ops, id)
    ensures !EverAdded(ops, id) ==> Since(ops, id) == []
    ensures id in Run(m, ops) ==>
              var ss := Since(ops, id);
              Run(m, ops)[id] == if ss == [] then BLANK else ErrorState(Fold(m, id.deviceType, ss), ss[|ss| - 1])
    decreases |ops|
  {
    hide Apply, Fold, EverAdded, Adds;
    if ops == [] {
      assert !EverAdded(ops, id) by { NothingAdded(id); }
    } else {
      var n := |ops| - 1;
      var init := ops[..n];
      ErrorsAreFolds(m, init, id);
      assert init + [ops[n]] == ops;
      EverAddedNext(init, ops[n], id);
      ShowsStep(m, Run(m, init), ops[n], id, EverAdded(init, id), Since(init, id));
      SinceNext(init, ops[n], id);
    }
  }

  lemma NothingAdded(id: Identity)
    ensures !EverAdded([], id)
  {
  }

  lemma SinceNext(ops: seq<Op>, op: Op, id: Identity)
    ensures Since(ops + [op], id)
         == if op.Cleared? then [] else if Adds(op, id) then Since(ops, id) + [op.status] else Since(ops, id)
  {
    assert (ops + [op])[..|ops|] == ops;
  }
}
