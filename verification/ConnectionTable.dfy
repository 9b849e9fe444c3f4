/**
  Which connection holds which device identity, as a specification: a map with one slot for each
  identity, and the events the module handler is told. `C` is whatever stands for a connection.
 */
module ConnectionTable {
  import opened Common

  datatype Slot<+C> = Slot(conn: C, device: DeviceId)

  datatype Event = Connected(device: DeviceId) | StatusReceived(status: DeviceStatus) | Disconnected(device: DeviceId)

  datatype Table<C> = Table(slots: map<Identity, Slot<C>>, log: seq<Event>)

  datatype Verdict = Admitted | AlreadyConnected | HigherPriorityConnected

  /** The connection of `device` goes: its slot is freed, unless it is held at another priority. */
  function Drop<C>(t: Table<C>, device: DeviceId): Table<C> {
    if device.identity in t.slots && t.slots[device.identity].device.priority == device.priority then
      Table(t.slots - {device.identity}, t.log + [Disconnected(device)])
    else
      t
  }

  function Enter<C>(t: Table<C>, conn: C, device: DeviceId): Table<C> {
    Table(t.slots[device.identity := Slot(conn, device)], t.log + [Connected(device)])
  }

  function Judge<C>(t: Table<C>, device: DeviceId): Verdict {
    if device.identity !in t.slots then
      Admitted
    else
      var holder := t.slots[device.identity].device.priority;
      if device.priority == holder then AlreadyConnected
      else if device.priority > holder then HigherPriorityConnected
      else Admitted
  }

  /** A connection asks for a device: a smaller number is a higher priority and takes the slot over. */
  function Admit<C>(t: Table<C>, conn: C, device: DeviceId): Table<C> {
    if Judge(t, device) != Admitted then
      t
    else if device.identity in t.slots then
      Enter(Drop(t, t.slots[device.identity].device), conn, device)
    else
      Enter(t, conn, device)
  }

  // Bracketing: what the module handler sees of one identity.

  function Weight(e: Event, id: Identity): int {
    match e
    case Connected(device) => if device.identity == id then 1 else 0
    case Disconnected(device) => if device.identity == id then -1 else 0
    case StatusReceived(_) => 0
  }

  /** The connects of `id` less its disconnects. */
  function Net(log: seq<Event>, id: Identity): int {
    if log == [] then 0 else Net(log[..|log| - 1], id) + Weight(log[|log| - 1], id)
  }

  /** Connects and disconnects of `id` alternate, a connect first. */
  ghost predicate Bracketed(log: seq<Event>, id: Identity) {
    forall k :: 0 <= k <= |log| ==> 0 <= Net(log[..k], id) <= 1
  }

  /** Between two connects of an identity there is a disconnect of it. */
  lemma BracketsAlternate(log: seq<Event>, id: Identity, i: nat, j: nat)
    requires Bracketed(log, id) && i < j < |log|
    requires Weight(log[i], id) == 1 && Weight(log[j], id) == 1
    ensures exists k :: i < k < j && Weight(log[k], id) == -1
  {
    assert log[..i + 1][..i] == log[..i] && log[..j + 1][..j] == log[..j];
    FindDescent(log, id, i + 1, j);
  }

  lemma {:induction false} FindDescent(log: seq<Event>, id: Identity, i: nat, j: nat)
    requires i <= j <= |log| && Net(log[..j], id) < Net(log[..i], id)
    ensures exists k :: i <= k < j && Weight(log[k], id) == -1
    decreases j - i
  {
    assert log[..j][..j - 1] == log[..j - 1];
    if Weight(log[j - 1], id) != -1 {
      FindDescent(log, id, i, j - 1);
    }
  }

  ghost predicate Keyed<C>(t: Table<C>) {
    forall id :: id in t.slots ==> t.slots[id].device.identity == id
  }

  /** Exactly the identities with an open bracket are active. */
  ghost predicate TableInv<C>(t: Table<C>) {
    && Keyed(t)
    && forall id :: Bracketed(t.log, id) && Net(t.log, id) == if id in t.slots then 1 else 0
  }

  lemma NetSnoc(log: seq<Event>, e: Event, id: Identity)
    ensures Net(log + [e], id) == Net(log, id) + Weight(e, id)
    ensures Bracketed(log, id) && 0 <= Net(log + [e], id) <= 1 ==> Bracketed(log + [e], id)
  {
    assert (log + [e])[..|log|] == log;
    if Bracketed(log, id) && 0 <= Net(log + [e], id) <= 1 {
      forall k | 0 <= k <= |log + [e]| ensures 0 <= Net((log + [e])[..k], id) <= 1 {
        if k <= |log| {
          assert (log + [e])[..k] == log[..k];
        } else {
          assert (log + [e])[..k] == log + [e];
        }
      }
    }
  }

  lemma DropKeepsInv<C>(t: Table<C>, device: DeviceId)
    requires TableInv(t)
    ensures TableInv(Drop(t, device))
  {
    forall id ensures Bracketed(Drop(t, device).log, id) && Net(Drop(t, device).log, id) == if id in Drop(t, device).slots then 1 else 0 {
      NetSnoc(t.log, Disconnected(device), id);
    }
  }

  lemma EnterKeepsInv<C>(t: Table<C>, conn: C, device: DeviceId)
    requires TableInv(t) && device.identity !in t.slots
    ensures TableInv(Enter(t, conn, device))
  {
    forall id ensures Bracketed(Enter(t, conn, device).log, id) && Net(Enter(t, conn, device).log, id) == if id in Enter(t, conn, device).slots then 1 else 0 {
      NetSnoc(t.log, Connected(device), id);
    }
  }

  lemma AdmitKeepsInv<C>(t: Table<C>, conn: C, device: DeviceId)
    requires TableInv(t)
    ensures TableInv(Admit(t, conn, device))
  {
    if Judge(t, device) == Admitted {
      if device.identity in t.slots {
        DropKeepsInv(t, t.slots[device.identity].device);
        EnterKeepsInv(Drop(t, t.slots[device.identity].device), conn, device);
      } else {
        EnterKeepsInv(t, conn, device);
      }
    }
  }

  lemma StatusKeepsInv<C>(t: Table<C>, status: DeviceStatus)
    requires TableInv(t)
    ensures TableInv(t.(log := t.log + [StatusReceived(status)]))
  {
    forall id ensures Bracketed(t.log + [StatusReceived(status)], id)
                      && Net(t.log + [StatusReceived(status)], id) == if id in t.slots then 1 else 0 {
      NetSnoc(t.log, StatusReceived(status), id);
    }
  }

  // Admission: the outcome of any sequence of connects.

  datatype Request<+C> = Request(conn: C, device: DeviceId)

  function AdmitAll<C>(requests: seq<Request<C>>): Table<C> {
    if requests == [] then
      Table(map[], [])
    else
      var last := requests[|requests| - 1];
      Admit(AdmitAll(requests[..|requests| - 1]), last.conn, last.device)
  }

  /** Request `w` has the smallest number for its identity, and nobody before it had that number. */
  ghost predicate IsWinner<C>(requests: seq<Request<C>>, w: int) {
    && 0 <= w < |requests|
    && forall k :: 0 <= k < |requests| && requests[k].device.identity == requests[w].device.identity ==>
         && requests[w].device.priority <= requests[k].device.priority
         && (k < w ==> requests[w].device.priority < requests[k].device.priority)
  }

  ghost predicate HeldByWinner<C>(requests: seq<Request<C>>, id: Identity, slot: Slot<C>) {
    exists w :: IsWinner(requests, w) && requests[w].device.identity == id && slot == Slot(requests[w].conn, requests[w].device)
  }

  /** An admission concerns the slot of one identity only. */
  lemma AdmitLocally<C>(t: Table<C>, conn: C, device: DeviceId, id: Identity)
    requires Keyed(t)
    ensures Keyed(Admit(t, conn, device))
    ensures var u := Admit(t, conn, device);
            if id == device.identity && Judge(t, device) == Admitted then
              id in u.slots && u.slots[id] == Slot(conn, device)
            else
              (id in u.slots <==> id in t.slots) && (id in u.slots ==> u.slots[id] == t.slots[id])
  {
  }

  lemma {:induction false} AdmitAllKeyed<C>(requests: seq<Request<C>>)
    ensures Keyed(AdmitAll(requests))
    decreases |requests|
  {
    if requests != [] {
      var last := requests[|requests| - 1];
      AdmitAllKeyed(requests[..|requests| - 1]);
      AdmitLocally(AdmitAll(requests[..|requests| - 1]), last.conn, last.device, last.device.identity);
    }
  }

  ghost predicate Asked<C>(requests: seq<Request<C>>, id: Identity) {
    exists k :: 0 <= k < |requests| && requests[k].device.identity == id
  }

  lemma AskedNext<C>(requests: seq<Request<C>>, id: Identity)
    ensures requests == [] ==> !Asked(requests, id)
    ensures requests != [] ==>
              var n := |requests| - 1;
              Asked(requests, id) <==> Asked(requests[..n], id) || requests[n].device.identity == id
  {
    if Asked(requests, id) {
      var k :| 0 <= k < |requests| && requests[k].device.identity == id;
      assert k < |requests| - 1 ==> requests[..|requests| - 1][k] == requests[k];
    }
  }

  lemma FirstWins<C>(requests: seq<Request<C>>)
    requires requests != [] && !Asked(requests[..|requests| - 1], requests[|requests| - 1].device.identity)
    ensures IsWinner(requests, |requests| - 1)
  {
    var n := |requests| - 1;
    assert forall k :: 0 <= k < n ==> requests[k] == requests[..n][k];
  }

  /** The last request takes over from the winner before it when its number is smaller. */
  lemma SmallerWins<C>(requests: seq<Request<C>>, w: int)
    requires requests != [] && IsWinner(requests[..|requests| - 1], w)
    requires requests[|requests| - 1].device.identity == requests[w].device.identity
    requires requests[|requests| - 1].device.priority < requests[w].device.priority
    ensures IsWinner(requests, |requests| - 1)
  {
    var n := |requests| - 1;
    assert forall k :: 0 <= k < n ==> requests[k] == requests[..n][k];
  }

  lemma WinnerStays<C>(requests: seq<Request<C>>, w: int)
    requires requests != [] && IsWinner(requests[..|requests| - 1], w)
    requires requests[|requests| - 1].device.identity == requests[w].device.identity ==>
               requests[w].device.priority <= requests[|requests| - 1].device.priority
    ensures IsWinner(requests, w)
  {
    var n := |requests| - 1;
    assert forall k :: 0 <= k < n ==> requests[k] == requests[..n][k];
  }

  lemma HeldIs<C>(requests: seq<Request<C>>, w: int)
    requires IsWinner(requests, w)
    ensures HeldByWinner(requests, requests[w].device.identity, Slot(requests[w].conn, requests[w].device))
  {
  }

  lemma HolderOf<C>(requests: seq<Request<C>>, id: Identity, slot: Slot<C>) returns (w: nat)
    requires HeldByWinner(requests, id, slot)
    ensures IsWinner(requests, w) && w < |requests| && requests[w].device.identity == id
    ensures slot == Slot(requests[w].conn, requests[w].device)
  {
    w :| IsWinner(requests, w) && requests[w].device.identity == id && slot == Slot(requests[w].conn, requests[w].device);
  }

  /** Each identity anybody asked for is held by the earliest connection that asked with the smallest number. */
  lemma {:induction false} AdmissionIsEarliestMinimum<C>(requests: seq<Request<C>>, id: Identity)
    ensures id in AdmitAll(requests).slots <==> Asked(requests, id)
    ensures id in AdmitAll(requests).slots ==> HeldByWinner(requests, id, AdmitAll(requests).slots[id])
    decreases |requests|
  {
    hide Admit, IsWinner, HeldByWinner, Asked;
    AskedNext(requests, id);
    if requests != [] {
      var n := |requests| - 1;
      var before, last := requests[..n], requests[n];
      AdmissionIsEarliestMinimum(before, id);
      AdmitAllKeyed(before);
      AdmitLocally(AdmitAll(before), last.conn, last.device, id);
      if id in AdmitAll(before).slots {
        var w := HolderOf(before, id, AdmitAll(before).slots[id]);
        assert before[w] == requests[w];
        if last.device.identity == id && Judge(AdmitAll(before), last.device) == Admitted {
          SmallerWins(requests, w);
          HeldIs(requests, n);
        } else {
          WinnerStays(requests, w);
          HeldIs(requests, w);
        }
      } else if last.device.identity == id {
        FirstWins(requests);
        HeldIs(requests, n);
      }
    }
  }

  /** A winner is unique, so the table is determined. */
  lemma WinnerIsUnique<C>(requests: seq<Request<C>>, v: int, w: int)
    requires IsWinner(requests, v) && IsWinner(requests, w)
    requires requests[v].device.identity == requests[w].device.identity
    ensures v == w
  {
  }

  /** So whoever asked earliest with the smallest number holds the identity. */
  lemma WinnerHolds<C>(requests: seq<Request<C>>, w: int)
    requires IsWinner(requests, w)
    ensures var id := requests[w].device.identity;
            id in AdmitAll(requests).slots && AdmitAll(requests).slots[id] == Slot(requests[w].conn, requests[w].device)
  {
    hide AdmitAll;
    var id := requests[w].device.identity;
    AdmissionIsEarliestMinimum(requests, id);
    assert Asked(requests, id);
    var v := HolderOf(requests, id, AdmitAll(requests).slots[id]);
    WinnerIsUnique(requests, v, w);
  }

  /** Some request for the identity of the device has a number in the given relation to its own. */
  ghost predicate Rivalled<C>(requests: seq<Request<C>>, device: DeviceId, relation: (uint32, uint32) -> bool) {
    exists k :: 0 <= k < |requests| && requests[k].device.identity == device.identity
      && relation(requests[k].device.priority, device.priority)
  }

  /**
    The answer to a connect tells how its number compares with those asked for before: some are smaller, or one is
    equal and none is smaller, or it is smaller than all of them.
   */
  lemma VerdictComparesNumbers<C>(requests: seq<Request<C>>, device: DeviceId)
    ensures var verdict := Judge(AdmitAll(requests), device);
            var smaller, equal := Rivalled(requests, device, (a, b) => a < b), Rivalled(requests, device, (a, b) => a == b);
            && (verdict == HigherPriorityConnected <==> smaller)
            && (verdict == AlreadyConnected <==> equal && !smaller)
            && (verdict == Admitted <==> !equal && !smaller)
  {
    hide AdmitAll;
    var id, t := device.identity, AdmitAll(requests);
    AdmissionIsEarliestMinimum(requests, id);
    if id in t.slots {
      var w := HolderOf(requests, id, t.slots[id]);
      assert requests[w].device.identity == id && requests[w].device.priority == t.slots[id].device.priority;
    }
  }

  /** A refused connect changes nothing, and one that replaces another has a strictly smaller number. */
  lemma AdmitReplacesStrictly<C>(t: Table<C>, conn: C, device: DeviceId)
    requires Keyed(t) && device.identity in t.slots
    ensures Judge(t, device) != Admitted <==> Admit(t, conn, device) == t
    ensures Judge(t, device) == Admitted <==> device.priority < t.slots[device.identity].device.priority
    ensures Judge(t, device) == Admitted ==>
              Admit(t, conn, device).log == t.log + [Disconnected(t.slots[device.identity].device), Connected(device)]
  {
  }

  /** While nobody disconnects, the numbers a slot passes through strictly decrease. */
  lemma {:induction false} PrioritiesStrictlyDecrease<C>(requests: seq<Request<C>>)
    ensures var t := AdmitAll(requests);
            && Keyed(t)
            && (forall i :: 0 <= i < |t.log| && t.log[i].Connected? ==>
                  var id := t.log[i].device.identity;
                  id in t.slots && t.slots[id].device.priority <= t.log[i].device.priority)
            && (forall i, j :: 0 <= i < j < |t.log| && t.log[i].Connected? && t.log[j].Connected?
                               && t.log[i].device.identity == t.log[j].device.identity ==>
                  t.log[j].device.priority < t.log[i].device.priority)
    decreases |requests|
  {
    if requests != [] {
      PrioritiesStrictlyDecrease(requests[..|requests| - 1]);
    }
  }
}
