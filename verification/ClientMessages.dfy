/** Where the messages of the queue go while a connection is started: each of them to one connection, and in order. */
module ClientMessages {
  import opened Common
  import opened SentMessages
  import opened SessionSpec
  import opened SessionRuns
  import opened SessionScripts
  import opened ClientSpec

  /** The one connection that a message taken while connection `k` is started goes to. */
  function Destination(u: Setup, k: nat, item: ExternalItem): Option<nat> {
    if k < |u.modules| && ModuleOf(item) in u.modules[k] then Some(k)
    else if ModuleOf(item) in u.owners then Some(u.owners[ModuleOf(item)])
    else None
  }

  function ItemsFor(u: Setup, k: nat, items: seq<ExternalItem>, j: nat): seq<ExternalItem> {
    if items == [] then []
    else
      var item := items[|items| - 1];
      ItemsFor(u, k, items[..|items| - 1], j) + if Destination(u, k, item) == Some(j) then [item] else []
  }

  /** The connection being started absorbs its messages, the others have theirs delivered. */
  function Receives(u: Setup, k: nat, j: nat, s: Session, items: seq<ExternalItem>): Session
    requires j < |u.nets|
  {
    if items == [] then s
    else
      var before, item := Receives(u, k, j, s, items[..|items| - 1]), items[|items| - 1];
      if j == k then Fill(u.lib, before, item.status) else Deliver(u.lib, u.nets[j], before, item)
  }

  lemma ReceivesNext(u: Setup, k: nat, j: nat, s: Session, items: seq<ExternalItem>, item: ExternalItem)
    requires j < |u.nets|
    ensures var before := Receives(u, k, j, s, items);
            Receives(u, k, j, s, items + [item])
            == if j == k then Fill(u.lib, before, item.status) else Deliver(u.lib, u.nets[j], before, item)
  {
    hide Fill, Deliver;
    assert (items + [item])[..|items|] == items;
  }

  lemma {:induction false} ReceivesOn(u: Setup, k: nat, j: nat, s: Session, items: seq<ExternalItem>, more: seq<ExternalItem>)
    requires j < |u.nets|
    ensures Receives(u, k, j, s, items + more) == Receives(u, k, j, Receives(u, k, j, s, items), more)
    decreases |more|
  {
    hide Fill, Deliver;
    var all := items + more;
    if more == [] {
      assert all == items;
    } else {
      var n := |more| - 1;
      assert all[..|all| - 1] == items + more[..n];
      ReceivesOn(u, k, j, s, items, more[..n]);
    }
  }

  lemma ItemsForNext(u: Setup, k: nat, items: seq<ExternalItem>, item: ExternalItem, j: nat)
    ensures ItemsFor(u, k, items + [item], j)
         == if Destination(u, k, item) == Some(j) then ItemsFor(u, k, items, j) + [item] else ItemsFor(u, k, items, j)
  {
    hide Destination;
    assert (items + [item])[..|items|] == items;
  }

  lemma {:induction false} ItemsForAppend(u: Setup, k: nat, items: seq<ExternalItem>, more: seq<ExternalItem>, j: nat)
    ensures ItemsFor(u, k, items + more, j) == ItemsFor(u, k, items, j) + ItemsFor(u, k, more, j)
    decreases |more|
  {
    hide Destination;
    var all := items + more;
    if more == [] {
      assert all == items;
    } else {
      assert all[..|all| - 1] == items + more[..|more| - 1];
      ItemsForAppend(u, k, items, more[..|more| - 1], j);
    }
  }

  // Single messages.

  /** A module of connection `k` is not owned by another one when `k` has it, so nothing is routed to `k` itself. */
  lemma OthersAreRouted(u: Setup, k: nat, sessions: seq<Session>, item: ExternalItem)
    requires Fits(u, sessions) && k < |sessions| && ModuleOf(item) !in u.modules[k]
    ensures Destination(u, k, item) != Some(k)
    ensures Route(u, sessions, item)[k] == sessions[k]
  {
    hide Deliver;
  }

  lemma TakeProjects(u: Setup, k: nat, sessions: seq<Session>, item: ExternalItem, j: nat)
    requires Fits(u, sessions) && k < |sessions| && j < |sessions|
    ensures var after := Take(u, k, sessions, item)[j];
            if Destination(u, k, item) != Some(j) then after == sessions[j]
            else after == if j == k then Fill(u.lib, sessions[j], item.status) else Deliver(u.lib, u.nets[j], sessions[j], item)
  {
    hide Deliver, Fill;
  }

  /** A session that has received its share of the items receives its share of the next one. */
  lemma ShareNext(u: Setup, k: nat, sessions: seq<Session>, items: seq<ExternalItem>, item: ExternalItem, j: nat, s: Session)
    requires Fits(u, sessions) && k < |sessions| && j < |sessions|
    requires sessions[j] == Receives(u, k, j, s, ItemsFor(u, k, items, j))
    ensures Take(u, k, sessions, item)[j] == Receives(u, k, j, s, ItemsFor(u, k, items + [item], j))
  {
    hide Take, Deliver, Fill, Destination, Receives, ItemsFor;
    TakeProjects(u, k, sessions, item, j);
    ItemsForNext(u, k, items, item, j);
    ReceivesNext(u, k, j, s, ItemsFor(u, k, items, j), item);
  }

  /** Every connection gets exactly the messages that are for it, in their order. */
  lemma {:induction false} EachGetsItsOwn(u: Setup, k: nat, sessions: seq<Session>, items: seq<ExternalItem>, j: nat)
    requires Fits(u, sessions) && k < |sessions| && j < |sessions|
    ensures TakeAll(u, k, sessions, items)[j] == Receives(u, k, j, sessions[j], ItemsFor(u, k, items, j))
    decreases |items|
  {
    hide Take, Deliver, Fill, Destination;
    if items != [] {
      var n := |items| - 1;
      EachGetsItsOwn(u, k, sessions, items[..n], j);
      ShareNext(u, k, TakeAll(u, k, sessions, items[..n]), items[..n], items[n], j, sessions[j]);
      assert items[..n] + [items[n]] == items;
    }
  }

  // The drain at the start.

  /**
    The drain at the start of a connect sequence takes the messages before the first disconnect, all of them
    and nothing else, and each connection gets its own.
   */
  lemma DrainTakesLeading(u: Setup, k: nat, c: Client, j: nat)
    requires Fits(u, c.sessions) && k < |c.sessions| && j < |c.sessions|
    ensures var after, n := Drain(u, k, c), |c.queue| - |Drain(u, k, c).queue|;
            && 0 <= n && c.queue == c.queue[..n] + after.queue
            && (forall item :: item in c.queue[..n] ==> !item.disconnected)
            && (after.queue != [] ==> after.queue[0].disconnected)
            && after.sessions[j] == Receives(u, k, j, c.sessions[j], ItemsFor(u, k, c.queue[..n], j))
  {
    hide TakeAll;
    EachGetsItsOwn(u, k, c.sessions, c.queue[..Leading(c.queue)], j);
  }

  // The wait for the forced devices.

  /** The front of the queue is left for later: it is of another device of the connection. */
  predicate PutBack(u: Setup, k: nat, w: Wait, item: ExternalItem) {
    k < |u.modules| && ModuleOf(item) in u.modules[k] && !Listed(w.forced, item.status.device)
  }

  /** A round of the wait takes the front of the queue, or puts it back. */
  lemma WaitTakes(u: Setup, k: nat, w: Wait, arrivals: seq<ExternalItem>)
    requires Fits(u, w.client.sessions) && k < |w.client.sessions|
    ensures var after, queue := WaitOnce(u, k, w, arrivals), w.client.queue + arrivals;
            if w.forced == [] then after == w
            else if queue == [] then after == w.(client := w.client.(queue := []))
            else if PutBack(u, k, w, queue[0]) then after == w.(client := w.client.(queue := queue[1..] + [queue[0]]))
            else
              && after.client.queue == queue[1..]
              && after.client.sessions == Take(u, k, w.client.sessions, queue[0])
              && after.taken == w.taken + [queue[0]]
              && after.forced == if ModuleOf(queue[0]) in u.modules[k] then Unlisted(w.forced, queue[0].status.device) else w.forced
  {
    hide Fill, Route, Listed, Unlisted;
  }

  /** Every connection has got its own of the messages taken. */
  lemma {:induction false} WaitDelivers(u: Setup, k: nat, c: Client, forced: seq<DeviceId>,
                                        arrivals: seq<seq<ExternalItem>>, j: nat)
    requires Fits(u, c.sessions) && k < |c.sessions| && j < |c.sessions|
    ensures var after := WaitFor(u, k, Wait(c, forced, []), arrivals);
            after.client.sessions[j] == Receives(u, k, j, c.sessions[j], ItemsFor(u, k, after.taken, j))
    decreases |arrivals|
  {
    hide WaitOnce, Take, PutBack, Unlisted, Destination;
    if arrivals != [] {
      var n := |arrivals| - 1;
      WaitDelivers(u, k, c, forced, arrivals[..n], j);
      var w := WaitFor(u, k, Wait(c, forced, []), arrivals[..n]);
      WaitTakes(u, k, w, arrivals[n]);
      var queue := w.client.queue + arrivals[n];
      if queue != [] {
        ShareNext(u, k, w.client.sessions, w.taken, queue[0], j, c.sessions[j]);
      }
    }
  }

  function Concat(arrivals: seq<seq<ExternalItem>>): seq<ExternalItem> {
    if arrivals == [] then [] else Concat(arrivals[..|arrivals| - 1]) + arrivals[|arrivals| - 1]
  }

  /** How many rounds the wait goes through. */
  function WaitRounds(u: Setup, k: nat, w: Wait, arrivals: seq<seq<ExternalItem>>): (n: nat)
    requires Fits(u, w.client.sessions) && k < |w.client.sessions|
    ensures n <= |arrivals|
  {
    if arrivals == [] then 0
    else
      var init := arrivals[..|arrivals| - 1];
      if WaitFor(u, k, w, init).forced == [] then WaitRounds(u, k, w, init) else |arrivals|
  }

  /** The messages in the queue and those taken. */
  function Held(w: Wait): multiset<ExternalItem> {
    multiset(w.client.queue) + multiset(w.taken)
  }

  lemma Moved(queue: seq<ExternalItem>, arrivals: seq<ExternalItem>, x: ExternalItem, rest: seq<ExternalItem>, taken: seq<ExternalItem>)
    requires queue + arrivals == [x] + rest
    ensures multiset(rest + [x]) + multiset(taken) == multiset(queue) + multiset(taken) + multiset(arrivals)
    ensures multiset(rest) + multiset(taken + [x]) == multiset(queue) + multiset(taken) + multiset(arrivals)
  {
    assert multiset(queue) + multiset(arrivals) == multiset(queue + arrivals) == multiset([x] + rest);
    Regroup(multiset(queue), multiset(arrivals), multiset{x}, multiset(rest), multiset(taken));
    assert multiset(taken + [x]) == multiset(taken) + multiset{x};
    assert multiset(rest + [x]) == multiset(rest) + multiset{x};
  }

  lemma Regroup(q: multiset<ExternalItem>, arrivals: multiset<ExternalItem>, x: multiset<ExternalItem>,
                rest: multiset<ExternalItem>, t: multiset<ExternalItem>)
    requires q + arrivals == x + rest
    ensures (rest + x) + t == q + t + arrivals
    ensures rest + (t + x) == q + t + arrivals
  {
    assert q + t + arrivals == (q + arrivals) + t;
    assert rest + (t + x) == (x + rest) + t;
  }

  lemma {:induction false} UnlistedLength(list: seq<DeviceId>, device: DeviceId)
    requires Listed(list, device)
    ensures |Unlisted(list, device)| == |list| - 1
  {
    if list[0].identity != device.identity {
      var k :| 0 <= k < |list| && list[k].identity == device.identity;
      assert list[1..][k - 1].identity == device.identity;
      UnlistedLength(list[1..], device);
    }
  }

  /** A message is taken or put back, and each forced device takes in one. */
  lemma WaitKeepsMessages(u: Setup, k: nat, w: Wait, arrivals: seq<ExternalItem>)
    requires Fits(u, w.client.sessions) && k < |w.client.sessions| && w.forced != []
    ensures var after := WaitOnce(u, k, w, arrivals);
            && Held(after) == Held(w) + multiset(arrivals)
            && |ItemsFor(u, k, after.taken, k)| + |after.forced| == |ItemsFor(u, k, w.taken, k)| + |w.forced|
  {
    hide WaitOnce, Take, Listed, Unlisted, ItemsFor;
    var queue := w.client.queue + arrivals;
    WaitTakes(u, k, w, arrivals);
    if queue == [] {
      assert multiset(queue) == multiset(w.client.queue) + multiset(arrivals);
    } else {
      assert [queue[0]] + queue[1..] == queue;
      Moved(w.client.queue, arrivals, queue[0], queue[1..], w.taken);
      ItemsForNext(u, k, w.taken, queue[0], k);
      if ModuleOf(queue[0]) !in u.modules[k] {
        OthersAreRouted(u, k, w.client.sessions, queue[0]);
      } else if Listed(w.forced, queue[0].status.device) {
        UnlistedLength(w.forced, queue[0].status.device);
      }
    }
  }

  /** No message is lost or doubled while the forced devices are waited for, and each of them takes in one. */
  lemma {:induction false} WaitConserves(u: Setup, k: nat, w: Wait, arrivals: seq<seq<ExternalItem>>)
    requires Fits(u, w.client.sessions) && k < |w.client.sessions|
    ensures var after, n := WaitFor(u, k, w, arrivals), WaitRounds(u, k, w, arrivals);
            && (n < |arrivals| ==> after.forced == [])
            && Held(after) == Held(w) + multiset(Concat(arrivals[..n]))
            && |ItemsFor(u, k, after.taken, k)| + |after.forced| == |ItemsFor(u, k, w.taken, k)| + |w.forced|
    decreases |arrivals|
  {
    hide WaitOnce, Held, ItemsFor, Concat;
    if arrivals == [] {
      assert Concat([]) == [] by { NothingConcat(); }
      assert Held(w) + multiset([]) == Held(w);
    } else {
      var n := |arrivals| - 1;
      WaitConserves(u, k, w, arrivals[..n]);
      var before := WaitFor(u, k, w, arrivals[..n]);
      if before.forced == [] {
        WaitIsOver(u, k, before, arrivals[n]);
        var r := WaitRounds(u, k, w, arrivals[..n]);
        assert arrivals[..n][..r] == arrivals[..r];
      } else {
        assert arrivals[..n][..n] == arrivals[..n] && arrivals[..n + 1] == arrivals;
        assert arrivals[..n] + [arrivals[n]] == arrivals;
        WaitKeepsMessages(u, k, before, arrivals[n]);
        ConcatNext(arrivals[..n], arrivals[n]);
        HeldOn(Held(w), Concat(arrivals[..n]), arrivals[n]);
      }
    }
  }

  lemma HeldOn(held: multiset<ExternalItem>, before: seq<ExternalItem>, arrivals: seq<ExternalItem>)
    ensures held + multiset(before) + multiset(arrivals) == held + multiset(before + arrivals)
  {
    assert multiset(before + arrivals) == multiset(before) + multiset(arrivals);
  }

  lemma NothingConcat()
    ensures Concat([]) == []
  {
  }

  lemma WaitIsOver(u: Setup, k: nat, w: Wait, arrivals: seq<ExternalItem>)
    requires Fits(u, w.client.sessions) && k < |w.client.sessions| && w.forced == []
    ensures WaitOnce(u, k, w, arrivals) == w
  {
  }

  // The drain beside the connect attempt.

  /** A round takes the front of the queue, unless it is a disconnect; what is for the connection itself waits. */
  lemma DrainOnceTakes(u: Setup, k: nat, t: Turn, arrivals: seq<ExternalItem>, j: nat)
    requires Fits(u, t.client.sessions) && k < |t.client.sessions| && j < |t.client.sessions|
    ensures var after, queue := DrainOnce(u, k, t, arrivals), t.client.queue + arrivals;
            && after.client.sessions[k] == t.client.sessions[k]
            && after.client.timers == t.client.timers && after.client.requests == t.client.requests
            && if queue == [] || queue[0].disconnected || t.client.sessions[k].link == Connected then
                 after == t.(client := t.client.(queue := queue))
               else
                 && after.taken == t.taken + [queue[0]] && after.client.queue == queue[1..]
                 && (j != k ==> after.client.sessions[j] == Take(u, k, t.client.sessions, queue[0])[j])
  {
    hide Fill, Route;
    var queue := t.client.queue + arrivals;
    if queue != [] && ModuleOf(queue[0]) !in u.modules[k] {
      OthersAreRouted(u, k, t.client.sessions, queue[0]);
    }
  }

  lemma Reassociate(queue: seq<ExternalItem>, before: seq<ExternalItem>, taken: seq<ExternalItem>, rest: seq<ExternalItem>,
                    arrivals: seq<ExternalItem>)
    requires queue + before == taken + rest
    ensures queue + (before + arrivals) == taken + (rest + arrivals)
    ensures rest + arrivals != [] ==> taken + (rest + arrivals) == (taken + [(rest + arrivals)[0]]) + (rest + arrivals)[1..]
  {
    assert queue + (before + arrivals) == (queue + before) + arrivals;
    assert taken + (rest + arrivals) == (taken + rest) + arrivals;
  }

  /** A turn takes messages off the front in order, none of them a disconnect; the other connections get their own. */
  lemma {:induction false} TurnTakesFront(u: Setup, k: nat, c: Client, rounds: seq<seq<ExternalItem>>, j: nat)
    requires Fits(u, c.sessions) && k < |c.sessions| && j < |c.sessions|
    ensures var t := DrainTurn(u, k, c, rounds);
            && c.queue + Concat(rounds) == t.taken + t.client.queue
            && (forall item :: item in t.taken ==> !item.disconnected)
            && t.client.sessions[k] == c.sessions[k] && t.client.timers == c.timers && t.client.requests == c.requests
            && (j != k ==> t.client.sessions[j] == Receives(u, k, j, c.sessions[j], ItemsFor(u, k, t.taken, j)))
    decreases |rounds|
  {
    hide DrainOnce, Take, Destination, Deliver, Fill;
    if rounds != [] {
      var n := |rounds| - 1;
      TurnTakesFront(u, k, c, rounds[..n], j);
      var t := DrainTurn(u, k, c, rounds[..n]);
      DrainOnceTakes(u, k, t, rounds[n], j);
      Reassociate(c.queue, Concat(rounds[..n]), t.taken, t.client.queue, rounds[n]);
      var queue := t.client.queue + rounds[n];
      if queue != [] && j != k {
        ShareNext(u, k, t.client.sessions, t.taken, queue[0], j, c.sessions[j]);
      }
    }
  }

  function Arrivals(turns: seq<seq<seq<ExternalItem>>>): seq<ExternalItem> {
    if turns == [] then [] else Arrivals(turns[..|turns| - 1]) + Concat(turns[|turns| - 1])
  }

  lemma ConcatNext(groups: seq<seq<ExternalItem>>, group: seq<ExternalItem>)
    ensures Concat(groups + [group]) == Concat(groups) + group
  {
    assert (groups + [group])[..|groups|] == groups;
  }

  /** So do all the turns together. */
  lemma {:induction false} BesideTakesFront(u: Setup, k: nat, c: Client, turns: seq<seq<seq<ExternalItem>>>, j: nat)
    requires Fits(u, c.sessions) && k < |c.sessions| && j < |c.sessions|
    ensures var b := DrainBeside(u, k, c, turns);
            && c.queue + Arrivals(turns) == Concat(b.groups) + b.client.queue
            && (forall item :: item in Concat(b.groups) ==> !item.disconnected)
            && b.client.sessions[k] == c.sessions[k] && b.client.timers == c.timers && b.client.requests == c.requests
            && (j != k ==> b.client.sessions[j] == Receives(u, k, j, c.sessions[j], ItemsFor(u, k, Concat(b.groups), j)))
    decreases |turns|
  {
    hide DrainTurn, Receives, ItemsFor, Concat;
    if turns == [] {
      Nothing(u, k, j, c.sessions[j]);
      assert c.queue + [] == [] + c.queue;
    } else {
      var n := |turns| - 1;
      BesideTakesFront(u, k, c, turns[..n], j);
      var b := DrainBeside(u, k, c, turns[..n]);
      TurnTakesFront(u, k, b.client, turns[n], j);
      var t := DrainTurn(u, k, b.client, turns[n]);
      ConcatNext(b.groups, t.taken);
      assert c.queue + (Arrivals(turns[..n]) + Concat(turns[n])) == (c.queue + Arrivals(turns[..n])) + Concat(turns[n]);
      assert (Concat(b.groups) + b.client.queue) + Concat(turns[n]) == Concat(b.groups) + (t.taken + t.client.queue);
      assert Concat(b.groups) + (t.taken + t.client.queue) == (Concat(b.groups) + t.taken) + t.client.queue;
      ItemsForAppend(u, k, Concat(b.groups), t.taken, j);
      if j != k {
        ReceivesOn(u, k, j, c.sessions[j], ItemsFor(u, k, Concat(b.groups), j), ItemsFor(u, k, t.taken, j));
      }
    }
  }

  lemma Nothing(u: Setup, k: nat, j: nat, s: Session)
    requires j < |u.nets|
    ensures Concat([]) == [] && ItemsFor(u, k, [], j) == [] && Receives(u, k, j, s, []) == s
  {
  }

  // As operations of one connection.

  function Statuses(items: seq<ExternalItem>): seq<DeviceStatus> {
    if items == [] then [] else Statuses(items[..|items| - 1]) + [items[|items| - 1].status]
  }

  function DeliverOp(s: Session, item: ExternalItem): Op {
    if s.link != Connected then Absorb(item.status)
    else Send(item.status, if item.disconnected then Disconnecting else Running, [])
  }

  function ReceiveOps(u: Setup, k: nat, j: nat, s: Session, items: seq<ExternalItem>): seq<Op>
    requires j < |u.nets|
  {
    if items == [] then []
    else
      var n := |items| - 1;
      ReceiveOps(u, k, j, s, items[..n])
      + [if j == k then Absorb(items[n].status) else DeliverOp(Receives(u, k, j, s, items[..n]), items[n])]
  }

  /** Receiving messages is a run of single operations, one for each message. */
  lemma {:induction false} ReceivesPlays(u: Setup, k: nat, j: nat, s: Session, items: seq<ExternalItem>)
    requires j < |u.nets|
    ensures Play(u.lib, u.nets[j], s, ReceiveOps(u, k, j, s, items)) == Receives(u, k, j, s, items)
    ensures Brought(ReceiveOps(u, k, j, s, items)) == Statuses(items)
    decreases |items|
  {
    hide Fill, SendStatus, Play, Brought;
    if items == [] {
      PlayNothing(u.lib, u.nets[j], s);
    } else {
      var n := |items| - 1;
      ReceivesPlays(u, k, j, s, items[..n]);
      var op := if j == k then Absorb(items[n].status) else DeliverOp(Receives(u, k, j, s, items[..n]), items[n]);
      PlayNext(u.lib, u.nets[j], s, ReceiveOps(u, k, j, s, items[..n]), op);
    }
  }

  lemma FlattenNext(groups: seq<seq<DeviceStatus>>, group: seq<DeviceStatus>)
    ensures Flatten(groups + [group]) == Flatten(groups) + group
  {
    if groups == [] {
      assert Flatten([group]) == group by { assert [group][1..] == []; }
      assert groups + [group] == [group];
    } else {
      assert (groups + [group])[1..] == groups[1..] + [group];
      FlattenNext(groups[1..], group);
    }
  }

  /** What the connection takes in at its pauses are its own of the messages taken beside the attempt. */
  lemma {:induction false} MeanwhileIsOwn(u: Setup, k: nat, groups: seq<seq<ExternalItem>>)
    requires k < |u.modules| && forall number :: number in u.owners && u.owners[number] == k ==> number in u.modules[k]
    ensures Flatten(Meanwhile(u.modules[k], groups)) == Statuses(ItemsFor(u, k, Concat(groups), k))
    decreases |groups|
  {
    hide Statuses, ItemsFor, StatusesOf, Concat, Flatten;
    if groups == [] {
      NothingTaken(u, k);
      assert Meanwhile(u.modules[k], groups) == [];
    } else {
      var n := |groups| - 1;
      MeanwhileIsOwn(u, k, groups[..n]);
      assert groups[..n] + [groups[n]] == groups;
      ConcatNext(groups[..n], groups[n]);
      ItemsForAppend(u, k, Concat(groups[..n]), groups[n], k);
      assert Meanwhile(u.modules[k], groups) == Meanwhile(u.modules[k], groups[..n]) + [StatusesOf(u.modules[k], groups[n])];
      FlattenNext(Meanwhile(u.modules[k], groups[..n]), StatusesOf(u.modules[k], groups[n]));
      OwnStatuses(u, k, groups[n]);
      StatusesAppend(ItemsFor(u, k, Concat(groups[..n]), k), ItemsFor(u, k, groups[n], k));
    }
  }

  lemma NothingTaken(u: Setup, k: nat)
    ensures Flatten([]) == [] && Concat([]) == [] && ItemsFor(u, k, [], k) == [] && Statuses([]) == []
  {
  }

  lemma {:induction false} StatusesAppend(items: seq<ExternalItem>, more: seq<ExternalItem>)
    ensures Statuses(items + more) == Statuses(items) + Statuses(more)
    decreases |more|
  {
    var all := items + more;
    if more == [] {
      assert all == items;
    } else {
      assert all[..|all| - 1] == items + more[..|more| - 1];
      StatusesAppend(items, more[..|more| - 1]);
    }
  }

  lemma {:induction false} OwnStatuses(u: Setup, k: nat, items: seq<ExternalItem>)
    requires k < |u.modules| && forall number :: number in u.owners && u.owners[number] == k ==> number in u.modules[k]
    ensures StatusesOf(u.modules[k], items) == Statuses(ItemsFor(u, k, items, k))
    decreases |items|
  {
    hide Destination, StatusesOf, ItemsFor, Statuses;
    if items == [] {
      NothingTaken(u, k);
      NothingOf(u.modules[k]);
    } else {
      var n := |items| - 1;
      OwnStatuses(u, k, items[..n]);
      assert items[..n] + [items[n]] == items;
      OwnDestination(u, k, items[n]);
      StatusesOfNext(u.modules[k], items[..n], items[n]);
      ItemsForNext(u, k, items[..n], items[n], k);
      StatusesNext(ItemsFor(u, k, items[..n], k), items[n]);
    }
  }

  lemma OwnDestination(u: Setup, k: nat, item: ExternalItem)
    requires k < |u.modules| && forall number :: number in u.owners && u.owners[number] == k ==> number in u.modules[k]
    ensures Destination(u, k, item) == Some(k) <==> ModuleOf(item) in u.modules[k]
  {
  }

  lemma StatusesNext(items: seq<ExternalItem>, item: ExternalItem)
    ensures Statuses(items + [item]) == Statuses(items) + [item.status]
  {
    assert (items + [item])[..|items|] == items;
  }
}
