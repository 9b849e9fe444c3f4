/** When a connect sequence can succeed: every device of its list is registered by the time it is tried. */
module ClientSequence {
  import opened Common
  import opened SentMessages
  import opened SessionSpec
  import opened SessionRuns
  import opened ClientSpec
  import opened ClientMessages
  import opened ConnectLanguage

  // The wait for the forced devices.

  /** Each device of the list is registered, or still waited for. */
  ghost predicate Covered(s: Session, devices: seq<DeviceId>, forced: seq<DeviceId>) {
    forall device :: device in devices ==> IsRegistered(s, device) || Listed(forced, device)
  }

  /** A connection to be started: it has its modules, and they support the types of the devices in the list. */
  ghost predicate Idle(u: Setup, k: nat, s: Session, devices: seq<DeviceId>)
    requires k < |u.modules|
  {
    && s.link == NotInitialized
    && s.errors.Keys == u.modules[k]
    && forall device :: device in devices ==>
         device.identity.moduleNumber in u.modules[k] && u.lib(device.identity.moduleNumber).supports(device.identity.deviceType)
  }

  lemma {:induction false} UnlistedOthers(list: seq<DeviceId>, device: DeviceId, other: DeviceId)
    requires device.identity != other.identity && Listed(list, other)
    ensures Listed(Unlisted(list, device), other)
  {
    DisconnectTakesOneEntry(list, device, other);
  }

  lemma {:induction false} UnregisteredLists(s: Session, devices: seq<DeviceId>, device: DeviceId)
    requires device in devices
    ensures IsRegistered(s, device) || Listed(Unregistered(s, devices), device)
    decreases |devices|
  {
    hide IsRegistered;
    var n := |devices| - 1;
    var init := Unregistered(s, devices[..n]);
    var all := Unregistered(s, devices);
    if devices[n] == device {
      assert !IsRegistered(s, device) ==> all[|init|].identity == device.identity;
    } else {
      assert device in devices[..n];
      UnregisteredLists(s, devices[..n], device);
      if Listed(init, device) {
        var i :| 0 <= i < |init| && init[i].identity == device.identity;
        assert all[i].identity == device.identity;
      }
    }
  }

  /** Aggregation is forced on exactly the devices of the list that are not registered, in its order. */
  lemma {:induction false} UnregisteredExactly(s: Session, devices: seq<DeviceId>)
    ensures forall device :: device in Unregistered(s, devices) <==> device in devices && !IsRegistered(s, device)
    ensures |devices| > 0 ==>
              var n := |devices| - 1;
              && Unregistered(s, devices[..n]) <= Unregistered(s, devices)
              && |Unregistered(s, devices)| == |Unregistered(s, devices[..n])| + if IsRegistered(s, devices[n]) then 0 else 1
    decreases |devices|
  {
    hide IsRegistered;
    if devices != [] {
      var n := |devices| - 1;
      UnregisteredExactly(s, devices[..n]);
      assert devices == devices[..n] + [devices[n]];
    }
  }

  /** Absorbing a status registers its device. */
  lemma FillRegisters(lib: Library, s: Session, status: DeviceStatus)
    requires Supports(s, status.device) && lib(status.device.identity.moduleNumber).supports(status.device.identity.deviceType)
    ensures IsRegistered(Fill(lib, s, status), status.device)
    ensures Fill(lib, s, status).errors.Keys == s.errors.Keys
  {
    hide FeedAll;
    FeedAllKeys(lib, s.errors, s.pending);
  }

  lemma FillKeepsIdle(u: Setup, k: nat, s: Session, status: DeviceStatus, devices: seq<DeviceId>)
    requires k < |u.modules| && Idle(u, k, s, devices)
    ensures Idle(u, k, Fill(u.lib, s, status), devices)
  {
    var lib := u.lib;
    hide FeedAll;
    FeedAllKeys(lib, s.errors, s.pending);
  }

  lemma WaitCovers(u: Setup, k: nat, w: Wait, arrivals: seq<ExternalItem>, devices: seq<DeviceId>)
    requires Fits(u, w.client.sessions) && k < |w.client.sessions|
    requires Idle(u, k, w.client.sessions[k], devices)
    requires Covered(w.client.sessions[k], devices, w.forced)
    ensures var after := WaitOnce(u, k, w, arrivals);
            && Idle(u, k, after.client.sessions[k], devices)
            && Covered(after.client.sessions[k], devices, after.forced)
  {
    hide Fill, Route, IsRegistered, Listed, Unlisted, Idle;
    var sessions, queue := w.client.sessions, w.client.queue + arrivals;
    if w.forced != [] && queue != [] {
      var item := queue[0];
      var s, device := sessions[k], item.status.device;
      if ModuleOf(item) !in u.modules[k] {
        OthersAreRouted(u, k, sessions, item);
      } else if Listed(w.forced, device) {
        var t := Fill(u.lib, s, item.status);
        FillKeepsIdle(u, k, s, item.status, devices);
        forall d | d in devices ensures IsRegistered(t, d) || Listed(Unlisted(w.forced, device), d) {
          if IsRegistered(s, d) {
            RegisteredStep(u.lib, u.nets[k], s, Absorb(item.status), d);
          } else if d.identity == device.identity {
            IdleSupports(u, k, s, devices, d, item.status);
            FillRegisters(u.lib, s, item.status);
            SameIdentity(t, d, device);
          } else {
            UnlistedOthers(w.forced, device, d);
          }
        }
      }
    }
  }

  lemma IdleSupports(u: Setup, k: nat, s: Session, devices: seq<DeviceId>, device: DeviceId, status: DeviceStatus)
    requires k < |u.modules| && Idle(u, k, s, devices) && device in devices && status.device.identity == device.identity
    ensures Supports(s, status.device) && u.lib(status.device.identity.moduleNumber).supports(status.device.identity.deviceType)
  {
  }

  lemma SameIdentity(s: Session, d: DeviceId, e: DeviceId)
    requires d.identity == e.identity
    ensures IsRegistered(s, d) <==> IsRegistered(s, e)
  {
  }

  lemma {:induction false} WaitForCovers(u: Setup, k: nat, w: Wait, arrivals: seq<seq<ExternalItem>>, devices: seq<DeviceId>)
    requires Fits(u, w.client.sessions) && k < |w.client.sessions|
    requires Idle(u, k, w.client.sessions[k], devices)
    requires Covered(w.client.sessions[k], devices, w.forced)
    ensures var after := WaitFor(u, k, w, arrivals);
            && Idle(u, k, after.client.sessions[k], devices)
            && Covered(after.client.sessions[k], devices, after.forced)
    decreases |arrivals|
  {
    hide Idle, Covered, WaitOnce;
    if arrivals != [] {
      var n := |arrivals| - 1;
      WaitForCovers(u, k, w, arrivals[..n], devices);
      WaitCovers(u, k, WaitFor(u, k, w, arrivals[..n]), arrivals[n], devices);
    }
  }

  // Before the connection is initialized.

  lemma {:induction false} ReceivesKeepsIdle(u: Setup, k: nat, s: Session, items: seq<ExternalItem>, devices: seq<DeviceId>)
    requires k < |u.modules| == |u.nets| && Idle(u, k, s, devices)
    ensures Idle(u, k, Receives(u, k, k, s, items), devices)
    decreases |items|
  {
    hide Idle, Fill;
    if items != [] {
      var n := |items| - 1;
      ReceivesKeepsIdle(u, k, s, items[..n], devices);
      FillKeepsIdle(u, k, Receives(u, k, k, s, items[..n]), items[n].status, devices);
    }
  }

  lemma FlushKeepsIdle(u: Setup, k: nat, s: Session, devices: seq<DeviceId>)
    requires k < |u.modules| && Idle(u, k, s, devices)
    ensures Idle(u, k, Flush(u.lib, s), devices)
  {
    hide FeedAll;
    FeedAllKeys(u.lib, s.errors, s.pending);
  }

  /**
    When the wait has not been cut short, every device of the list is registered by the time the connection
    is initialized.
   */
  lemma PrepareRegisters(u: Setup, k: nat, c: Client, e: Surroundings)
    requires Fits(u, c.sessions) && k < |c.sessions| && Idle(u, k, c.sessions[k], e.devices)
    ensures var w := Prepare(u, k, c, e);
            && Idle(u, k, w.client.sessions[k], e.devices)
            && (w.forced == [] ==> forall device :: device in e.devices ==> IsRegistered(w.client.sessions[k], device))
  {
    hide Idle, Drain, WaitFor, Flush, IsRegistered, Unregistered, ItemsFor, Receives, Listed;
    var start := WaitStart(u, k, c, e.devices);
    DrainTakesLeading(u, k, c, k);
    ReceivesKeepsIdle(u, k, c.sessions[k], ItemsFor(u, k, c.queue[..|c.queue| - |start.client.queue|], k), e.devices);
    var s := start.client.sessions[k];
    forall device | device in e.devices ensures IsRegistered(s, device) || Listed(start.forced, device) {
      UnregisteredLists(s, e.devices, device);
    }
    WaitForCovers(u, k, start, e.waiting, e.devices);
    var waited := WaitFor(u, k, start, e.waiting);
    var t := waited.client.sessions[k];
    FlushKeepsIdle(u, k, t, e.devices);
    forall device | device in e.devices && waited.forced == [] ensures IsRegistered(Flush(u.lib, t), device) {
      NothingListed(device);
      assert IsRegistered(t, device);
      RegisteredStep(u.lib, u.nets[k], t, FlushPending, device);
    }
  }

  lemma NothingListed(device: DeviceId)
    ensures !Listed([], device)
  {
  }

  /**
    So a connect sequence that was not cut short never fails for want of a registered device: it succeeds on
    exactly the traces of the language, and leaves the connection up or not connected.
   */
  lemma StartedExactlyOnTheLanguage(u: Setup, k: nat, c: Client, e: Surroundings)
    requires Fits(u, c.sessions) && k < |c.sessions| && Idle(u, k, c.sessions[k], e.devices)
    requires Prepare(u, k, c, e).forced == []
    ensures var before, after := Prepare(u, k, c, e).client.sessions[k], StartSequence(u, k, c, e).sessions[k];
            && after.link == (if InLanguage(u.nets[k], before, |e.devices|) then Connected else NotConnected)
            && StartSequence(u, k, c, e).timers
               == Prepare(u, k, c, e).client.timers + if after.link == Connected then [] else [k]
  {
    hide Prepare, DrainBeside, Meanwhile, Initialize, InLanguage, IsRegistered;
    PrepareRegisters(u, k, c, e);
    var prepared := Prepare(u, k, c, e).client;
    BesideTakesFront(u, k, prepared, e.connecting, k);
    var groups := DrainBeside(u, k, prepared, e.connecting).groups;
    ConnectSequenceLanguage(u.lib, u.nets[k], prepared.sessions[k], Meanwhile(u.modules[k], groups), e.devices);
  }
}
