/**
  The threads of the internal server around its connection table, step by step: what accepting, receiving,
  waiting for a response and listening to the module handler do to the vector of connections is what the
  interleaving model says.
 */
module ServerSteps {
  import opened Common
  import opened ConnectionTable
  import opened InternalServer
  import Runs = ServerRuns

  /** Two tables that differ only in what stands for a connection. */
  ghost predicate SameTable(t: Table<Connection>, u: Table<nat>, connections: seq<Connection>) {
    && t.log == u.log
    && t.slots.Keys == u.slots.Keys
    && forall id :: id in u.slots ==>
         u.slots[id].conn < |connections| && t.slots[id] == Slot(connections[u.slots[id].conn], u.slots[id].device)
  }

  lemma SameDrop(t: Table<Connection>, u: Table<nat>, connections: seq<Connection>, device: DeviceId)
    requires SameTable(t, u, connections)
    ensures SameTable(Drop(t, device), Drop(u, device), connections)
  {
  }

  lemma SameStatus(t: Table<Connection>, u: Table<nat>, connections: seq<Connection>, status: DeviceStatus)
    requires SameTable(t, u, connections)
    ensures SameTable(t.(log := t.log + [StatusReceived(status)]), u.(log := u.log + [StatusReceived(status)]), connections)
  {
  }

  lemma SameEnter(t: Table<Connection>, u: Table<nat>, connections: seq<Connection>, c: nat, device: DeviceId)
    requires SameTable(t, u, connections) && c < |connections|
    ensures SameTable(Enter(t, connections[c], device), Enter(u, c, device), connections)
  {
  }

  lemma SameAdmit(t: Table<Connection>, u: Table<nat>, connections: seq<Connection>, c: nat, device: DeviceId)
    requires SameTable(t, u, connections) && c < |connections|
    ensures Judge(t, device) == Judge(u, device)
    ensures SameTable(Admit(t, connections[c], device), Admit(u, c, device), connections)
  {
    hide Drop, Enter;
    if device.identity in u.slots {
      SameDrop(t, u, connections, u.slots[device.identity].device);
      SameEnter(Drop(t, u.slots[device.identity].device), Drop(u, u.slots[device.identity].device), connections, c, device);
    } else {
      SameEnter(t, u, connections, c, device);
    }
  }

  class Gateway {
    const server: Server
    /** The connections in the order they were accepted, and where the handler of each is. */
    var connections: seq<Connection>
    var phases: seq<Runs.Phase>

    ghost predicate Simulates(s: Runs.Server)
      reads this, server, connections, server.connectedDevices
    {
      && server.Valid()
      && Distinct(connections)
      && (forall c :: c in server.connectedDevices ==> c in connections)
      && |phases| == |connections| == |s.conns|
      && (forall i :: 0 <= i < |connections| ==>
            s.conns[i] == Runs.Conn(connections[i].deviceId, connections[i].ready, phases[i]))
      && SameTable(server.Contents(), s.table, connections)
    }

    constructor (serialize: ServerMessage -> Bytes)
      ensures Simulates(Runs.INITIAL) && fresh(server)
    {
      server := new Server(serialize);
      connections, phases := [], [];
    }

    method Accept(ghost s: Runs.Server)
      requires Simulates(s)
      modifies this
      ensures Simulates(Runs.Apply(s, Runs.Accept))
      ensures |connections| == |old(connections)| + 1
      ensures connections == old(connections) + [connections[|old(connections)|]] && fresh(connections[|old(connections)|])
    {
      var connection := new Connection();
      connections := connections + [connection];
      phases := phases + [Runs.Idle];
    }

    /** The vector holds accepted connections only. */
    lemma HoldersAreAccepted(t: Table<nat>)
      requires server.Valid() && SameTable(server.Contents(), t, connections)
      ensures forall c :: c in server.connectedDevices ==> c in connections
    {
      forall c | c in server.connectedDevices ensures c in connections {
        var id := c.deviceId.value.identity;
        assert t.slots[id].conn < |connections| && c == connections[t.slots[id].conn];
      }
    }

    /** A connect message; what the handler does once it has been refused is the clean-up. */
    method ConnectMessage(ghost s: Runs.Server, c: nat, device: DeviceId)
      requires Simulates(s) && Runs.Inv(s) && Runs.Enabled(s, Runs.ConnectMessage(c, device))
      modifies this`phases, server, connections
      ensures Simulates(Runs.Apply(s, Runs.ConnectMessage(c, device)))
    {
      hide Server.Valid, SameTable, Judge, Admit, Runs.Inv;
      SameAdmit(server.Contents(), s.table, connections, c, device);
      IdleIsValid(s, c);
      ghost var t := Runs.Apply(s, Runs.ConnectMessage(c, device));
      var ok := server.HandleConnection(connections[c], device);
      phases := phases[c := if ok then Runs.Waiting else Runs.Failing];
      HoldersAreAccepted(t.table);
    }

    lemma IdleIsValid(s: Runs.Server, c: nat)
      requires Runs.Inv(s) && Runs.InPhase(s, c, Runs.Idle)
      ensures s.conns[c].device == None || s.conns[c].ready
    {
      assert Runs.PhaseValid(s.conns[c]);
    }

    /** A status message; one that comes before the connection is ready is refused. */
    method StatusMessage(ghost s: Runs.Server, c: nat, status: DeviceStatus)
      requires Simulates(s) && Runs.Enabled(s, Runs.StatusMessage(c, status))
      modifies this`phases, server, connections
      ensures Simulates(Runs.Apply(s, Runs.StatusMessage(c, status)))
    {
      hide Server.Valid, SameTable;
      SameStatus(server.Contents(), s.table, connections, status);
      var ok := server.HandleStatus(connections[c], status);
      phases := phases[c := if ok then Runs.Waiting else Runs.Failing];
    }

    /** A message that cannot be handled, an error of the socket, or no response in time. */
    method Fail(ghost s: Runs.Server, ghost step: Runs.Step, c: nat)
      requires step == Runs.BadMessage(c) || step == Runs.ReadError(c) || step == Runs.ResponseTimeout(c)
      requires Simulates(s) && Runs.Enabled(s, step)
      modifies this`phases
      ensures Simulates(Runs.Apply(s, step))
    {
      hide Server.Valid, SameTable;
      phases := phases[c := Runs.Failing];
    }

    /** The handler has been told that the response has been sent, and reads on. */
    method Wake(ghost s: Runs.Server, c: nat)
      requires Simulates(s) && Runs.Enabled(s, Runs.Wake(c))
      modifies this`phases
      ensures Simulates(Runs.Apply(s, Runs.Wake(c)))
    {
      hide Server.Valid, SameTable;
      phases := phases[c := Runs.Idle];
    }

    method Cleanup(ghost s: Runs.Server, c: nat)
      requires Simulates(s) && Runs.Enabled(s, Runs.Cleanup(c))
      modifies this`phases, server, connections
      ensures Simulates(Runs.Apply(s, Runs.Cleanup(c)))
    {
      hide Server.Valid, SameTable, Drop;
      if s.conns[c].device.Some? {
        SameDrop(server.Contents(), s.table, connections, s.conns[c].device.value);
      }
      ghost var t := Runs.Apply(s, Runs.Cleanup(c));
      server.RemoveConnFromMap(connections[c]);
      phases := phases[c := Runs.Closed];
      HoldersAreAccepted(t.table);
    }

    /** A response of the module handler. */
    method Response(ghost s: Runs.Server, message: ServerMessage)
      requires Simulates(s)
      modifies connections
      ensures Simulates(Runs.Apply(s, Runs.Response(message.device)))
    {
      hide Server.Valid, SameTable;
      SameAddressee(s, message.device);
      server.ValidateResponse(message);
    }

    /** The connection that the response is for is the one that the model releases. */
    lemma SameAddressee(s: Runs.Server, device: DeviceId)
      requires Simulates(s)
      ensures var slots := s.table.slots;
              if device.identity in slots && slots[device.identity].device.priority == device.priority then
                && slots[device.identity].conn < |connections|
                && server.Addressee(device) == Some(connections[slots[device.identity].conn])
                && connections[slots[device.identity].conn] in server.connectedDevices
              else server.Addressee(device) == None
    {
    }

    method DisconnectRequest(ghost s: Runs.Server, device: DeviceId)
      requires Simulates(s)
      modifies server, connections
      ensures Simulates(Runs.Apply(s, Runs.DisconnectRequest(device)))
    {
      hide Server.Valid, Drop;
      if device.identity in s.table.slots {
        SameDrop(server.Contents(), s.table, connections, s.table.slots[device.identity].device);
      }
      ghost var t := Runs.Apply(s, Runs.DisconnectRequest(device));
      server.HandleDisconnect(device);
      HoldersAreAccepted(t.table);
    }

    predicate Possible(step: Runs.Step)
      reads this, connections
    {
      match step
      case ConnectMessage(c, _) => c < |phases| && phases[c] == Runs.Idle
      case StatusMessage(c, _) => c < |phases| && phases[c] == Runs.Idle
      case BadMessage(c) => c < |phases| && phases[c] == Runs.Idle
      case ReadError(c) => c < |phases| && phases[c] == Runs.Idle
      case Wake(c) => c < |phases| == |connections| && phases[c] == Runs.Waiting && connections[c].ready
      case ResponseTimeout(c) => c < |phases| == |connections| && phases[c] == Runs.Waiting && !connections[c].ready
      case Cleanup(c) => c < |phases| && phases[c] == Runs.Failing
      case _ => true
    }

    lemma PossibleIsEnabled(s: Runs.Server, step: Runs.Step)
      requires Simulates(s)
      ensures Possible(step) <==> Runs.Enabled(s, step)
    {
    }

    method Perform(ghost s: Runs.Server, step: Runs.Step)
      requires Simulates(s) && Runs.Inv(s) && Runs.Enabled(s, step)
      modifies this, server, connections
      ensures Simulates(Runs.Apply(s, step))
      ensures forall k :: 0 <= k < |connections| ==> connections[k] in old(connections) || fresh(connections[k])
    {
      hide Simulates, Runs.Inv, Runs.Enabled, Runs.Apply;
      match step
      case Accept => Accept(s);
      case ConnectMessage(c, device) => ConnectMessage(s, c, device);
      case StatusMessage(c, status) => StatusMessage(s, c, status);
      case BadMessage(c) => Fail(s, step, c);
      case ReadError(c) => Fail(s, step, c);
      case Wake(c) => Wake(s, c);
      case ResponseTimeout(c) => Fail(s, step, c);
      case Cleanup(c) => Cleanup(s, c);
      case Response(device) => Response(s, Command(device, []));
      case DisconnectRequest(device) => DisconnectRequest(s, device);
    }

    /** The server's classes, taken through any steps, are where the interleaving model is. */
    method Play(steps: seq<Runs.Step>)
      requires Simulates(Runs.INITIAL)
      modifies this, server, connections
      ensures Simulates(Runs.Run(steps))
    {
      hide Simulates, Runs.Inv, Runs.Enabled, Runs.Apply, Possible;
      for i := 0 to |steps|
        invariant Simulates(Runs.Run(steps[..i]))
        invariant forall k :: 0 <= k < |connections| ==> connections[k] in old(connections) || fresh(connections[k])
      {
        ghost var s := Runs.Run(steps[..i]);
        Runs.RunKeepsInv(steps[..i]);
        PossibleIsEnabled(s, steps[i]);
        assert steps[..i + 1][..i] == steps[..i];
        if Possible(steps[i]) {
          Perform(s, steps[i]);
        }
      }
      assert steps[..|steps|] == steps;
    }
  }
}
