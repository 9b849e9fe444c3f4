/** The external client: takes the messages of the modules to the external connections, and keeps these up. */
module ExternalClient {
  import opened Common
  import opened SentMessages
  import opened SessionSpec
  import opened ClientSpec
  import opened ExternalConnection
  import Deliveries

  /** A module belongs to the first connection that has it. */
  ghost predicate FirstWins(modules: seq<set<int>>, owners: map<int, nat>, n: nat)
    requires n <= |modules|
  {
    && (forall number :: number in owners ==>
          && owners[number] < n && number in modules[owners[number]]
          && forall i :: 0 <= i < owners[number] ==> number !in modules[i])
    && (forall i, number :: 0 <= i < n && number in modules[i] ==> number in owners)
  }

  lemma FirstWinsFits(modules: seq<set<int>>, owners: map<int, nat>)
    requires FirstWins(modules, owners, |modules|)
    ensures forall number :: number in owners ==> owners[number] < |modules| && number in modules[owners[number]]
  {
  }

  method MapModules(modules: seq<set<int>>) returns (owners: map<int, nat>)
    ensures FirstWins(modules, owners, |modules|)
  {
    owners := map[];
    for i := 0 to |modules|
      invariant FirstWins(modules, owners, i)
    {
      owners := owners + map number | number in modules[i] && number !in owners :: i;
    }
  }

  function Modules(connections: seq<ExternalConnection>): (modules: seq<set<int>>)
    ensures |modules| == |connections|
  {
    seq(|connections|, i requires 0 <= i < |connections| => connections[i].errorAggregators.Keys)
  }

  function Nets(connections: seq<ExternalConnection>): (nets: seq<Network>)
    ensures |nets| == |connections|
  {
    seq(|connections|, i requires 0 <= i < |connections| => connections[i].net)
  }

  ghost function Views(connections: seq<ExternalConnection>): (views: seq<Session>)
    reads connections, set i | 0 <= i < |connections| :: connections[i].sentMessages
    ensures |views| == |connections| && forall i :: 0 <= i < |views| ==> views[i] == connections[i].View()
  {
    if connections == [] then [] else Views(connections[..|connections| - 1]) + [connections[|connections| - 1].View()]
  }

  class ExternalClient {
    const connections: seq<ExternalConnection>
    const externalConnectionMap: map<int, nat>
    var toExternalQueue: seq<ExternalItem>
    var insideConnectSequence: bool
    /** The connections that a timer will have started again. */
    var reconnectTimers: seq<nat>
    /** The requests of the timers and of the connections. */
    var reconnectQueue: seq<Asked>
    ghost const setup: Setup
    ghost const footprint: set<object>
    ghost var sessions: seq<Session>

    ghost predicate Valid()
      reads `sessions, footprint
    {
      && Fits(setup, sessions) && |sessions| == |connections| && setup.owners == externalConnectionMap
      && this !in footprint
      && (forall i :: 0 <= i < |connections| ==> connections[i].Repr <= footprint)
      && (forall i :: 0 <= i < |connections| ==> Represents(connections[i], i))
      && (forall i, j :: 0 <= i < j < |connections| ==> connections[i].Repr !! connections[j].Repr)
    }

    ghost predicate Represents(c: ExternalConnection, i: nat)
      requires i < |sessions| == |setup.nets| == |setup.modules| && c.Repr <= footprint
      reads `sessions, footprint
    {
      && c.Valid() && c.View() == sessions[i]
      && c.lib == setup.lib && c.net == setup.nets[i] && c.errorAggregators.Keys == setup.modules[i]
    }

    ghost function View(): Client
      reads `sessions, `toExternalQueue, `reconnectTimers, `reconnectQueue
    {
      Client(sessions, toExternalQueue, reconnectTimers, reconnectQueue)
    }

    constructor (connections: seq<ExternalConnection>, lib: Library)
      requires forall i :: 0 <= i < |connections| ==> connections[i].Valid() && connections[i].lib == lib
      requires forall i, j :: 0 <= i < j < |connections| ==> connections[i].Repr !! connections[j].Repr
      ensures Valid() && this.connections == connections && !insideConnectSequence
      ensures setup == Setup(lib, Nets(connections), Modules(connections), externalConnectionMap)
      ensures FirstWins(setup.modules, externalConnectionMap, |connections|)
      ensures View() == Client(Views(connections), [], [], [])
    {
      hide Valid, Represents, ExternalConnection.Valid, ExternalConnection.View, Fits, FirstWins, Modules, Nets, Views;
      var modules := Modules(connections);
      var owners := MapModules(modules);
      this.connections, externalConnectionMap := connections, owners;
      toExternalQueue, insideConnectSequence, reconnectTimers, reconnectQueue := [], false, [], [];
      setup := Setup(lib, Nets(connections), modules, owners);
      footprint := set i, o | 0 <= i < |connections| && o in connections[i].Repr :: o;
      sessions := Views(connections);
      new;
      FirstWinsFits(modules, owners);
      Establish(lib);
    }

    lemma Establish(lib: Library)
      requires forall i :: 0 <= i < |connections| ==> connections[i].Valid() && connections[i].lib == lib
      requires forall i, j :: 0 <= i < j < |connections| ==> connections[i].Repr !! connections[j].Repr
      requires setup == Setup(lib, Nets(connections), Modules(connections), externalConnectionMap)
      requires footprint == set i, o | 0 <= i < |connections| && o in connections[i].Repr :: o
      requires sessions == Views(connections) && this !in footprint
      requires forall number :: number in setup.owners ==>
                 setup.owners[number] < |setup.modules| && number in setup.modules[setup.owners[number]]
      ensures Valid()
    {
      hide ExternalConnection.Valid, ExternalConnection.View, Views;
    }

    lemma Lookup(i: nat)
      requires Valid() && i < |connections|
      ensures Fits(setup, sessions) && |sessions| == |connections| && setup.owners == externalConnectionMap
      ensures this !in footprint && connections[i].Repr <= footprint
      ensures Represents(connections[i], i)
    {
    }

    /** One connection has changed, and the ghost field has been brought up to date. */
    twostate lemma Changed(i: nat)
      requires old(Valid()) && i < |connections| && |sessions| == |connections|
      requires connections[i].Valid() && sessions == old(sessions)[i := connections[i].View()]
      requires forall o :: o in footprint && o !in connections[i].Repr ==> unchanged(o)
      ensures Valid()
    {
      hide ExternalConnection.Valid, ExternalConnection.View;
      forall j | 0 <= j < |connections| && j != i ensures Represents(connections[j], j) {
        assert old(Represents(connections[j], j));
        assert connections[i].Repr !! connections[j].Repr;
      }
    }

    method FillErrorAggregator(i: nat, status: DeviceStatus)
      requires Valid() && i < |connections|
      modifies `sessions, footprint
      ensures Valid() && |sessions| == |old(sessions)| == |connections|
      ensures sessions == old(sessions)[i := Fill(setup.lib, old(sessions)[i], status)]
    {
      hide Valid, Fill, ExternalConnection.Valid, ExternalConnection.View;
      Lookup(i);
      connections[i].FillErrorAggregator(status);
      sessions := sessions[i := connections[i].View()];
      Changed(i);
    }

    method FillErrorAggregatorWithNotAckedStatuses(i: nat)
      requires Valid() && i < |connections|
      modifies `sessions, footprint
      ensures Valid() && |sessions| == |old(sessions)| == |connections|
      ensures sessions == old(sessions)[i := Flush(setup.lib, old(sessions)[i])]
    {
      hide Valid, Flush, ExternalConnection.Valid, ExternalConnection.View;
      Lookup(i);
      connections[i].FillErrorAggregatorWithNotAckedStatuses();
      sessions := sessions[i := connections[i].View()];
      Changed(i);
    }

    method DeinitializeConnection(i: nat)
      requires Valid() && i < |connections|
      modifies `sessions, footprint
      ensures Valid() && |sessions| == |old(sessions)| == |connections|
      ensures sessions == old(sessions)[i := Reset(setup.lib, old(sessions)[i])]
    {
      hide Valid, Reset, ExternalConnection.Valid, ExternalConnection.View;
      Lookup(i);
      connections[i].DeinitializeConnection();
      sessions := sessions[i := connections[i].View()];
      Changed(i);
    }

    method SendOn(i: nat, status: DeviceStatus, kind: Kind)
      requires Valid() && i < |connections|
      modifies `sessions, footprint
      ensures Valid() && |sessions| == |old(sessions)| == |connections|
      ensures sessions == old(sessions)[i := SessionSpec.SendStatus(setup.lib, setup.nets[i], old(sessions)[i], status, kind, [])]
    {
      hide Valid, SessionSpec.SendStatus, ExternalConnection.Valid, ExternalConnection.View;
      Lookup(i);
      connections[i].SendStatus(status, kind, []);
      sessions := sessions[i := connections[i].View()];
      Changed(i);
    }

    method InitializeConnection(i: nat, devices: seq<DeviceId>, meanwhile: seq<seq<DeviceStatus>>) returns (rc: Rc)
      requires Valid() && i < |connections| && DevicesFit(i, devices)
      modifies `sessions, footprint
      ensures Valid() && |sessions| == |old(sessions)| == |connections|
      ensures var r := Initialize(setup.lib, setup.nets[i], old(sessions)[i], meanwhile, devices);
              sessions == old(sessions)[i := r.session] && rc == r.rc
    {
      hide Valid, Initialize, ExternalConnection.Valid, ExternalConnection.View;
      Lookup(i);
      SupportsAll(i, devices);
      rc := connections[i].InitializeConnection(devices, meanwhile);
      sessions := sessions[i := connections[i].View()];
      Changed(i);
    }

    ghost predicate DevicesFit(i: nat, devices: seq<DeviceId>) {
      i < |setup.modules| && forall device :: device in devices ==> device.identity.moduleNumber in setup.modules[i]
    }

    lemma SupportsAll(i: nat, devices: seq<DeviceId>)
      requires Valid() && i < |connections| && DevicesFit(i, devices)
      ensures AllSupported(connections[i].View(), devices)
    {
    }

    /** The state a connection is in, and whether it has a module. */
    method Inspect(i: nat, number: int) returns (state: Link, supported: bool)
      requires Valid() && i < |connections|
      ensures i < |sessions| && state == sessions[i].link
      ensures i < |setup.modules| && supported == (number in setup.modules[i])
    {
      state, supported := connections[i].state, connections[i].IsModuleSupported(number);
    }

    /**
      Within a connect sequence no other one is started. Outside, a status for a connection that has not been
      initialized starts it. The result is false when the device has been disconnected.
     */
    method SendStatus(item: ExternalItem, e: nat -> Surroundings) returns (stays: bool)
      requires Valid()
      requires !insideConnectSequence && ModuleOf(item) in externalConnectionMap ==>
                 var i := externalConnectionMap[ModuleOf(item)]; DevicesFit(i, e(i).devices)
      modifies this, footprint
      ensures Valid() && insideConnectSequence == old(insideConnectSequence)
      ensures View() == if insideConnectSequence then old(View()).(sessions := Route(setup, old(sessions), item))
                        else Dispatch(setup, old(View()), item, e)
      ensures ModuleOf(item) in externalConnectionMap ==> externalConnectionMap[ModuleOf(item)] < |old(sessions)|
      ensures ModuleOf(item) in externalConnectionMap ==>
                var i := externalConnectionMap[ModuleOf(item)];
                old(sessions)[i].link == Connected ==>
                  i < |setup.nets| && i < |sessions| && Deliveries.HandedOver(setup.lib, setup.nets[i], old(sessions)[i], sessions[i], item)
      ensures stays <==> !(&& ModuleOf(item) in externalConnectionMap && item.disconnected
                           && old(sessions)[externalConnectionMap[ModuleOf(item)]].link == Connected)
      decreases if insideConnectSequence then 0 else 6
    {
      hide Valid, Fill, SessionSpec.SendStatus, StartSequence, ExternalConnection.Valid, Deliveries.HandedOver;
      FitsMap();
      if ModuleOf(item) !in externalConnectionMap {
        return true;
      }
      var i := externalConnectionMap[ModuleOf(item)];
      HasModules(i);
      if sessions[i].link == Connected {
        Deliveries.UpIsHandedOver(setup.lib, setup.nets[i], sessions[i], item);
      }
      var state, _ := Inspect(i, ModuleOf(item));
      if state != Connected {
        FillKeepsLink(sessions[i], item.status);
        FillErrorAggregator(i, item.status);
        var filled, _ := Inspect(i, ModuleOf(item));
        if filled == NotInitialized {
          if insideConnectSequence {
            return true;
          }
          StartExternalConnectSequence(i, e(i));
        }
      } else if item.disconnected {
        SendOn(i, item.status, Disconnecting);
        return false;
      } else {
        SendOn(i, item.status, Running);
      }
      return true;
    }

    lemma HasModules(i: nat)
      requires Valid() && i < |connections|
      ensures i < |sessions| && i < |setup.modules| && sessions[i].errors.Keys == setup.modules[i]
    {
      assert Represents(connections[i], i);
    }

    lemma FillKeepsLink(s: Session, status: DeviceStatus)
      ensures Fill(setup.lib, s, status).link == s.link
    {
    }

    lemma FitsMap()
      requires Valid()
      ensures Fits(setup, sessions) && |sessions| == |connections| && setup.owners == externalConnectionMap && this !in footprint
    {
    }

    method StartExternalConnectSequence(k: nat, e: Surroundings)
      requires Valid() && k < |connections| && DevicesFit(k, e.devices)
      requires !insideConnectSequence
      modifies this, footprint
      ensures Valid() && !insideConnectSequence
      ensures k < |old(sessions)| && View() == StartSequence(setup, k, old(View()), e)
      decreases 5
    {
      hide Valid, Drain, WaitFor, DrainBeside, Meanwhile, Flush, Initialize, Unregistered, ExternalConnection.Valid;
      FitsMap();
      insideConnectSequence := true;
      DrainQueue(k, e);
      FitsMap();
      var forced := ForceAggregation(k, e.devices);
      forced := WaitForForcedDevices(k, forced, e);
      FitsMap();
      FillErrorAggregatorWithNotAckedStatuses(k);
      var meanwhile := DrainQueueDuringConnect(k, e);
      FitsMap();
      var rc := InitializeConnection(k, e.devices, meanwhile);
      if rc != Ok && forced == [] {
        reconnectTimers := reconnectTimers + [k];
      }
      insideConnectSequence := false;
    }

    method ForceAggregation(k: nat, devices: seq<DeviceId>) returns (forced: seq<DeviceId>)
      requires Valid() && k < |connections| && DevicesFit(k, devices)
      ensures k < |sessions| && forced == Unregistered(sessions[k], devices)
    {
      hide Valid, Unregistered, ExternalConnection.Valid, ExternalConnection.View;
      Lookup(k);
      SupportsAll(k, devices);
      forced := connections[k].ForceAggregationOnAllDevices(devices);
    }

    /** A message taken while connection `k` is started: absorbed by it, or sent on the connection it belongs to. */
    method TakeIn(k: nat, item: ExternalItem, e: Surroundings)
      requires Valid() && k < |connections| && insideConnectSequence
      modifies this, footprint
      ensures Valid() && insideConnectSequence && k < |old(sessions)| && Fits(setup, old(sessions))
      ensures View() == old(View()).(sessions := Take(setup, k, old(sessions), item))
      decreases 1
    {
      hide Valid, Fill, Route, ExternalConnection.Valid;
      FitsMap();
      var _, supported := Inspect(k, ModuleOf(item));
      if supported {
        FillErrorAggregator(k, item.status);
      } else {
        var _ := SendStatus(item, _ => e);
      }
    }

    method DrainQueue(k: nat, e: Surroundings)
      requires Valid() && k < |connections| && insideConnectSequence
      modifies this, footprint
      ensures Valid() && insideConnectSequence && k < |old(sessions)| && Fits(setup, old(sessions))
      ensures View() == Drain(setup, k, old(View()))
      decreases 3
    {
      hide Valid, Take, ExternalConnection.Valid;
      FitsMap();
      ghost var start, n := View(), 0;
      while toExternalQueue != []
        invariant Valid() && insideConnectSequence
        invariant n <= |start.queue| && Leading(start.queue) == n + Leading(start.queue[n..])
        invariant View() == start.(sessions := TakeAll(setup, k, start.sessions, start.queue[..n]), queue := start.queue[n..])
        decreases |toExternalQueue|
      {
        if toExternalQueue[0].disconnected {
          break;
        }
        var item := toExternalQueue[0];
        toExternalQueue := toExternalQueue[1..];
        TakeIn(k, item, e);
        assert start.queue[..n + 1][..n] == start.queue[..n];
        n := n + 1;
      }
    }

    /** The wait ends when each forced device has reported, or when the gateway is shut down. */
    method WaitForForcedDevices(k: nat, devices: seq<DeviceId>, e: Surroundings) returns (forced: seq<DeviceId>)
      requires Valid() && k < |connections| && insideConnectSequence
      modifies this, footprint
      ensures Valid() && insideConnectSequence && k < |old(sessions)| && Fits(setup, old(sessions))
      ensures var after := WaitFor(setup, k, Wait(old(View()), devices, []), e.waiting);
              View() == after.client && forced == after.forced
      decreases 3
    {
      hide Valid, WaitOnce, ExternalConnection.Valid;
      FitsMap();
      forced := devices;
      ghost var start := Wait(View(), devices, []);
      ghost var w := start;
      var i := 0;
      while forced != [] && i < |e.waiting|
        invariant Valid() && insideConnectSequence && i <= |e.waiting|
        invariant w == WaitFor(setup, k, start, e.waiting[..i]) && w.client == View() && w.forced == forced
        decreases |e.waiting| - i
      {
        assert e.waiting[..i + 1][..i] == e.waiting[..i];
        ghost var before := w;
        w := WaitOnce(setup, k, w, e.waiting[i]);
        forced := WaitRound(k, forced, before, e, e.waiting[i]);
        i := i + 1;
      }
      assert e.waiting[..|e.waiting|] == e.waiting;
      WaitIsOver(k, start, e.waiting, i);
    }

    lemma {:induction false} WaitIsOver(k: nat, w: Wait, arrivals: seq<seq<ExternalItem>>, i: nat)
      requires Fits(setup, w.client.sessions) && k < |w.client.sessions| && i <= |arrivals|
      requires i < |arrivals| ==> WaitFor(setup, k, w, arrivals[..i]).forced == []
      ensures WaitFor(setup, k, w, arrivals) == WaitFor(setup, k, w, arrivals[..i])
      decreases |arrivals|
    {
      hide Route, Fill;
      if i == |arrivals| {
        assert arrivals[..i] == arrivals;
      } else {
        var init := arrivals[..|arrivals| - 1];
        assert init[..i] == arrivals[..i];
        WaitIsOver(k, w, init, i);
      }
    }

    method WaitRound(k: nat, devices: seq<DeviceId>, ghost w: Wait, e: Surroundings, arrivals: seq<ExternalItem>)
      returns (forced: seq<DeviceId>)
      requires Valid() && k < |connections| && insideConnectSequence && devices != []
      requires w.client == View() && w.forced == devices
      modifies this, footprint
      ensures Valid() && insideConnectSequence && k < |old(sessions)| && Fits(setup, old(sessions))
      ensures var after := WaitOnce(setup, k, w, arrivals); View() == after.client && forced == after.forced
      decreases 2
    {
      hide Valid, Fill, Route, ExternalConnection.Valid, Unlisted;
      FitsMap();
      forced := devices;
      toExternalQueue := toExternalQueue + arrivals;
      if toExternalQueue == [] {
        return;
      }
      var item := toExternalQueue[0];
      toExternalQueue := toExternalQueue[1..];
      var _, supported := Inspect(k, ModuleOf(item));
      if supported {
        var i := FindDevice(forced, item.status.device);
        if i == |forced| {
          toExternalQueue := toExternalQueue + [item];
        } else {
          FillErrorAggregator(k, item.status);
          forced := forced[..i] + forced[i + 1..];
        }
      } else {
        var _ := SendStatus(item, _ => e);
      }
    }

    /**
      The drain beside the attempt, turn by turn: what it takes for the connection itself is what this one takes in
      at its pauses, since the error aggregators have a lock of their own.
     */
    method DrainQueueDuringConnect(k: nat, e: Surroundings) returns (meanwhile: seq<seq<DeviceStatus>>)
      requires Valid() && k < |connections| && insideConnectSequence
      modifies this, footprint
      ensures Valid() && insideConnectSequence && k < |old(sessions)| && Fits(setup, old(sessions)) && k < |setup.modules|
      ensures var beside := DrainBeside(setup, k, old(View()), e.connecting);
              View() == beside.client && meanwhile == Meanwhile(setup.modules[k], beside.groups)
      decreases 4
    {
      hide Valid, DrainTurn, StatusesOf, ExternalConnection.Valid;
      FitsMap();
      ghost var start := View();
      ghost var beside := Beside(start, []);
      meanwhile := [];
      for i := 0 to |e.connecting|
        invariant Valid() && insideConnectSequence
        invariant beside == DrainBeside(setup, k, start, e.connecting[..i])
        invariant View() == beside.client && meanwhile == Meanwhile(setup.modules[k], beside.groups)
      {
        assert e.connecting[..i + 1][..i] == e.connecting[..i];
        FitsMap();
        ghost var turn := DrainTurn(setup, k, View(), e.connecting[i]);
        var own := TakeTurn(k, e, e.connecting[i]);
        meanwhile := meanwhile + [own];
        beside := Beside(turn.client, beside.groups + [turn.taken]);
      }
      assert e.connecting[..|e.connecting|] == e.connecting;
    }

    method TakeTurn(k: nat, e: Surroundings, rounds: seq<seq<ExternalItem>>) returns (own: seq<DeviceStatus>)
      requires Valid() && k < |connections| && insideConnectSequence
      modifies this, footprint
      ensures Valid() && insideConnectSequence && k < |old(sessions)| && Fits(setup, old(sessions)) && k < |setup.modules|
      ensures var turn := DrainTurn(setup, k, old(View()), rounds);
              View() == turn.client && own == StatusesOf(setup.modules[k], turn.taken)
      decreases 3
    {
      hide Valid, DrainOnce, StatusesOf, ExternalConnection.Valid;
      FitsMap();
      ghost var start := View();
      ghost var turn := Turn(start, []);
      own := [];
      NothingOf(setup.modules[k]);
      for i := 0 to |rounds|
        invariant Valid() && insideConnectSequence
        invariant turn == DrainTurn(setup, k, start, rounds[..i])
        invariant View() == turn.client && own == StatusesOf(setup.modules[k], turn.taken)
      {
        assert rounds[..i + 1][..i] == rounds[..i];
        FitsMap();
        ghost var before := turn;
        turn := DrainOnce(setup, k, turn, rounds[i]);
        var status := DrainRound(k, e, before, rounds[i]);
        own := own + status;
      }
      assert rounds[..|rounds|] == rounds;
    }

    /** One round; `own` is the status taken for the connection itself, if any. */
    method DrainRound(k: nat, e: Surroundings, ghost t: Turn, arrivals: seq<ExternalItem>) returns (own: seq<DeviceStatus>)
      requires Valid() && k < |connections| && insideConnectSequence && t.client == View()
      modifies this, footprint
      ensures Valid() && insideConnectSequence && k < |old(sessions)| && Fits(setup, old(sessions)) && k < |setup.modules|
      ensures var after := DrainOnce(setup, k, t, arrivals);
              View() == after.client && StatusesOf(setup.modules[k], after.taken) == StatusesOf(setup.modules[k], t.taken) + own
      decreases 2
    {
      hide Valid, Route, StatusesOf, ExternalConnection.Valid;
      FitsMap();
      own := [];
      assert StatusesOf(setup.modules[k], t.taken) + [] == StatusesOf(setup.modules[k], t.taken);
      toExternalQueue := toExternalQueue + arrivals;
      if toExternalQueue == [] {
        return;
      }
      var item := toExternalQueue[0];
      var state, supported := Inspect(k, ModuleOf(item));
      if state == Connected || item.disconnected {
        return;
      }
      StatusesOfNext(setup.modules[k], t.taken, item);
      toExternalQueue := toExternalQueue[1..];
      if supported {
        own := [item.status];
      } else {
        var _ := SendStatus(item, _ => e);
      }
    }

    /** A connection that asked for it is dropped, and started again or left alone. */
    method HandleReconnect(k: nat, again: bool, e: Surroundings)
      requires Valid() && k < |connections| && DevicesFit(k, e.devices)
      requires !insideConnectSequence
      modifies this, footprint
      ensures Valid() && !insideConnectSequence
      ensures k < |old(sessions)| && Fits(setup, old(sessions)) && View() == Reconnect(setup, old(View()), k, again, e)
    {
      hide Valid, Reset, StartSequence, ExternalConnection.Valid;
      FitsMap();
      DeinitializeConnection(k);
      if again {
        StartExternalConnectSequence(k, e);
      }
    }

    method ReceivingHandlerLoop(i: nat, rounds: nat) returns (dropped: Option<bool>)
      requires Valid() && i < |connections|
      modifies `sessions, footprint
      ensures Valid() && |sessions| == |old(sessions)| == |connections|
      ensures var r := Receive(setup.lib, setup.nets[i], old(sessions)[i], rounds);
              sessions == old(sessions)[i := r.session] && dropped == r.dropped
    {
      hide Valid, Receive, ExternalConnection.Valid, ExternalConnection.View;
      Lookup(i);
      dropped := connections[i].ReceivingHandlerLoop(rounds);
      sessions := sessions[i := connections[i].View()];
      Changed(i);
    }

    /** The timers of the statuses that have not been acknowledged are running. */
    method IsAwaited(i: nat) returns (awaited: bool)
      requires Valid() && i < |connections|
      ensures i < |sessions| && awaited == (sessions[i].pending != [])
    {
      awaited := connections[i].sentMessages.notAckedStatuses != [];
    }

    /** Another thread has a turn: messages arrive, or it asks for a connection to be dropped. */
    method Happen(event: Event)
      requires Valid() && !insideConnectSequence
      modifies this, footprint
      ensures Valid() && !insideConnectSequence && Fits(setup, old(sessions))
      ensures View() == ClientSpec.Happen(setup, old(View()), event)
    {
      hide Valid, Receive, ExternalConnection.Valid;
      FitsMap();
      match event
      case Arrive(items) =>
        toExternalQueue := toExternalQueue + items;
      case Receiving(k, rounds) =>
        if k < |connections| {
          var dropped := ReceivingHandlerLoop(k, rounds);
          if dropped.Some? {
            reconnectQueue := reconnectQueue + [Asked(k, dropped.value)];
          }
        }
      case TimerFires(i) =>
        if i < |reconnectTimers| {
          reconnectQueue := reconnectQueue + [Asked(reconnectTimers[i], true)];
          reconnectTimers := reconnectTimers[..i] + reconnectTimers[i + 1..];
        }
      case StatusTimesOut(k) =>
        if k < |connections| {
          var awaited := IsAwaited(k);
          if awaited {
            reconnectQueue := reconnectQueue + [Asked(k, true)];
          }
        }
    }

    method HappenAll(events: seq<Event>)
      requires Valid() && !insideConnectSequence
      modifies this, footprint
      ensures Valid() && !insideConnectSequence && Fits(setup, old(sessions))
      ensures View() == ClientSpec.HappenAll(setup, old(View()), events)
    {
      hide Valid, ClientSpec.Happen, ExternalConnection.Valid;
      FitsMap();
      ghost var start := View();
      for i := 0 to |events|
        invariant Valid() && !insideConnectSequence
        invariant View() == ClientSpec.HappenAll(setup, start, events[..i])
      {
        assert events[..i + 1][..i] == events[..i];
        Happen(events[i]);
      }
      assert events[..|events|] == events;
    }

    /** Each list of devices is of modules that its connection has. */
    ghost predicate MeetsFit(e: nat -> Surroundings) {
      forall i :: 0 <= i < |connections| ==> DevicesFit(i, e(i).devices)
    }

    method AnswerRequest(e: nat -> Surroundings)
      requires Valid() && !insideConnectSequence && MeetsFit(e)
      modifies this, footprint
      ensures Valid() && !insideConnectSequence && Fits(setup, old(sessions))
      ensures View() == Answer(setup, old(View()), e)
    {
      hide Valid, Reconnect, ExternalConnection.Valid, DevicesFit;
      FitsMap();
      if reconnectQueue == [] {
        return;
      }
      var asked := reconnectQueue[0];
      reconnectQueue := reconnectQueue[1..];
      if asked.connection < |connections| {
        HandleReconnect(asked.connection, asked.again, e(asked.connection));
      }
    }

    method ServeMessage(e: nat -> Surroundings)
      requires Valid() && !insideConnectSequence && MeetsFit(e)
      modifies this, footprint
      ensures Valid() && !insideConnectSequence && Fits(setup, old(sessions))
      ensures View() == Serve(setup, old(View()), e)
    {
      hide Valid, Dispatch, ExternalConnection.Valid, DevicesFit;
      FitsMap();
      if toExternalQueue == [] {
        return;
      }
      var item := toExternalQueue[0];
      toExternalQueue := toExternalQueue[1..];
      var _ := SendStatus(item, e);
    }

    method HandleOneRound(r: Round)
      requires Valid() && !insideConnectSequence && MeetsFit(r.answering) && MeetsFit(r.serving)
      modifies this, footprint
      ensures Valid() && !insideConnectSequence && Fits(setup, old(sessions))
      ensures View() == HandleRound(setup, old(View()), r)
    {
      hide Valid, Answer, Serve, ClientSpec.HappenAll, MeetsFit, ExternalConnection.Valid;
      FitsMap();
      HappenAll(r.before);
      AnswerRequest(r.answering);
      HappenAll(r.between);
      ServeMessage(r.serving);
    }

    /** The client's loop, until the gateway is shut down. */
    method HandleAggregatedMessages(rounds: seq<Round>)
      requires Valid() && !insideConnectSequence && forall r :: r in rounds ==> MeetsFit(r.answering) && MeetsFit(r.serving)
      modifies this, footprint
      ensures Valid() && !insideConnectSequence && Fits(setup, old(sessions))
      ensures View() == HandleRounds(setup, old(View()), rounds)
    {
      hide Valid, HandleRound, MeetsFit, ExternalConnection.Valid;
      FitsMap();
      ghost var start := View();
      for i := 0 to |rounds|
        invariant Valid() && !insideConnectSequence
        invariant View() == HandleRounds(setup, start, rounds[..i])
      {
        assert rounds[..i + 1][..i] == rounds[..i];
        HandleOneRound(rounds[i]);
      }
      assert rounds[..|rounds|] == rounds;
    }
  }

  lemma UnlistedNext(devices: seq<DeviceId>, device: DeviceId)
    requires devices != []
    ensures Unlisted(devices, device)
         == if devices[0].identity == device.identity then devices[1..] else [devices[0]] + Unlisted(devices[1..], device)
  {
  }

  lemma {:induction false} UnlistedSkips(devices: seq<DeviceId>, device: DeviceId, i: nat)
    requires i <= |devices| && forall j :: 0 <= j < i ==> devices[j].identity != device.identity
    ensures Unlisted(devices, device) == devices[..i] + Unlisted(devices[i..], device)
    ensures i < |devices| && devices[i].identity == device.identity ==> Unlisted(devices[i..], device) == devices[i + 1..]
    decreases i
  {
    hide Unlisted;
    if i < |devices| {
      UnlistedNext(devices[i..], device);
      assert devices[i..][1..] == devices[i + 1..];
    }
    if i == 0 {
      assert devices[..0] + Unlisted(devices[0..], device) == Unlisted(devices[0..], device) && devices[0..] == devices;
    } else {
      var rest := devices[i - 1..];
      UnlistedSkips(devices, device, i - 1);
      UnlistedNext(rest, device);
      assert rest[1..] == devices[i..];
      assert devices[..i - 1] + ([rest[0]] + Unlisted(devices[i..], device)) == devices[..i] + Unlisted(devices[i..], device);
    }
  }

  /** The position of the first entry for the device, or the length of the list. */
  method FindDevice(devices: seq<DeviceId>, device: DeviceId) returns (i: nat)
    ensures i <= |devices|
    ensures i < |devices| <==> Listed(devices, device)
    ensures i < |devices| ==> Unlisted(devices, device) == devices[..i] + devices[i + 1..]
  {
    hide Unlisted;
    i := 0;
    while i < |devices| && devices[i].identity != device.identity
      invariant i <= |devices|
      invariant forall j :: 0 <= j < i ==> devices[j].identity != device.identity
    {
      i := i + 1;
    }
    UnlistedSkips(devices, device, i);
  }
}
