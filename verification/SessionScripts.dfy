/**
  What the composite operations do to a connection, the connect sequence and the receiving loop included,
  spelled out as the single operations they come to. What holds over every run therefore holds for them.
 */
module SessionScripts {
  import opened Common
  import opened SentMessages
  import opened SessionSpec
  import opened SessionRuns

  function Play(lib: Library, net: Network, s: Session, ops: seq<Op>): Session {
    if ops == [] then s else Step(lib, net, Play(lib, net, s, ops[..|ops| - 1]), ops[|ops| - 1])
  }

  /** The statuses that the client has brought to the connection; what a connect sequence repeats is not among them. */
  function Brought(ops: seq<Op>): seq<DeviceStatus> {
    if ops == [] then [] else Brought(ops[..|ops| - 1]) + BroughtBy(ops[|ops| - 1])
  }

  function BroughtBy(op: Op): seq<DeviceStatus> {
    match op
    case Absorb(status) => [status]
    case Send(status, kind, _) => if kind == Connecting then [] else [status]
    case _ => []
  }

  /** An operation of an attempt that does not succeed: errors are kept, and statuses only sent to connect devices. */
  predicate IsQuiet(op: Op) {
    !op.ForgetErrors? && (op.Send? ==> op.kind == Connecting)
  }

  ghost predicate Quiet(ops: seq<Op>) {
    forall op :: op in ops ==> IsQuiet(op)
  }

  lemma PlayNext(lib: Library, net: Network, s: Session, ops: seq<Op>, op: Op)
    ensures Play(lib, net, s, ops + [op]) == Step(lib, net, Play(lib, net, s, ops), op)
    ensures Brought(ops + [op]) == Brought(ops) + BroughtBy(op)
  {
    hide Step, BroughtBy;
    assert (ops + [op])[..|ops|] == ops;
  }

  lemma PlayOne(lib: Library, net: Network, s: Session, op: Op)
    ensures Play(lib, net, s, [op]) == Step(lib, net, s, op) && Brought([op]) == BroughtBy(op)
  {
    hide Step, BroughtBy;
    PlayNext(lib, net, s, [], op);
    assert [] + [op] == [op];
    assert Brought([]) + BroughtBy(op) == BroughtBy(op);
  }

  lemma {:induction false} PlayAppend(lib: Library, net: Network, s: Session, ops: seq<Op>, more: seq<Op>)
    ensures Play(lib, net, s, ops + more) == Play(lib, net, Play(lib, net, s, ops), more)
    ensures Brought(ops + more) == Brought(ops) + Brought(more)
    decreases |more|
  {
    hide Step, BroughtBy;
    var all := ops + more;
    if more == [] {
      assert all == ops;
    } else {
      var n := |more| - 1;
      PlayAppend(lib, net, s, ops, more[..n]);
      assert all[..|all| - 1] == ops + more[..n];
      assert Brought(ops) + Brought(more[..n]) + BroughtBy(more[n]) == Brought(ops) + (Brought(more[..n]) + BroughtBy(more[n]));
    }
  }

  lemma {:induction false} PlayIsRun(lib: Library, net: Network, modules: set<int>, ops: seq<Op>)
    ensures Run(lib, net, modules, ops).session == Play(lib, net, Start(modules).session, ops)
    decreases |ops|
  {
    hide Step, Enter, Start;
    if ops != [] {
      PlayIsRun(lib, net, modules, ops[..|ops| - 1]);
    }
  }

  /** A device that is registered stays so, whatever is played. */
  lemma {:induction false} RegisteredPlay(lib: Library, net: Network, s: Session, ops: seq<Op>, device: DeviceId)
    requires IsRegistered(s, device)
    ensures IsRegistered(Play(lib, net, s, ops), device)
    decreases |ops|
  {
    hide IsRegistered, Step;
    if ops != [] {
      var n := |ops| - 1;
      RegisteredPlay(lib, net, s, ops[..n], device);
      RegisteredStep(lib, net, Play(lib, net, s, ops[..n]), ops[n], device);
    }
  }

  // Scripts of a connect sequence: quiet, and bringing what is scheduled as far as it has been taken.

  ghost predicate Leads(lib: Library, net: Network, s: Session, ops: seq<Op>, t: Session) {
    && Play(lib, net, s, ops) == t
    && Quiet(ops)
    && Brought(ops) + Flatten(t.ahead) == Flatten(s.ahead)
  }

  lemma LeadsNowhere(lib: Library, net: Network, s: Session)
    ensures Leads(lib, net, s, [], s)
  {
    hide Flatten;
    assert Brought([]) + Flatten(s.ahead) == Flatten(s.ahead);
  }

  lemma LeadsOn(lib: Library, net: Network, s: Session, ops: seq<Op>, t: Session, more: seq<Op>, u: Session)
    requires Leads(lib, net, s, ops, t) && Leads(lib, net, t, more, u)
    ensures Leads(lib, net, s, ops + more, u)
  {
    hide Play, Brought, Flatten, IsQuiet;
    PlayAppend(lib, net, s, ops, more);
    assert Brought(ops) + Brought(more) + Flatten(u.ahead) == Brought(ops) + (Brought(more) + Flatten(u.ahead));
  }

  lemma LeadsBy(lib: Library, net: Network, s: Session, op: Op)
    requires IsQuiet(op) && !op.Absorb? && !op.Schedule?
    ensures Leads(lib, net, s, [op], Step(lib, net, s, op))
  {
    hide Play, Brought, Flatten, Step;
    PlayOne(lib, net, s, op);
    StepKeepsAhead(lib, net, s, op);
    assert [] + Flatten(s.ahead) == Flatten(s.ahead);
  }

  lemma StepKeepsAhead(lib: Library, net: Network, s: Session, op: Op)
    ensures !op.Schedule? ==> Step(lib, net, s, op).ahead == s.ahead
  {
    hide FeedAll, Feed, Acknowledged, ReportedAs, ConnectedAfter, IsRegistered, InOrder, Listed, Wipe;
  }

  function Absorbs(statuses: seq<DeviceStatus>): seq<Op> {
    seq(|statuses|, i requires 0 <= i < |statuses| => Absorb(statuses[i]))
  }

  lemma AbsorbsNext(statuses: seq<DeviceStatus>)
    ensures if statuses == [] then Absorbs(statuses) == []
            else Absorbs(statuses) == Absorbs(statuses[..|statuses| - 1]) + [Absorb(statuses[|statuses| - 1])]
  {
  }

  lemma PlayNothing(lib: Library, net: Network, s: Session)
    ensures Play(lib, net, s, []) == s && Brought([]) == []
  {
  }

  lemma {:induction false} AbsorbsPlay(lib: Library, net: Network, s: Session, statuses: seq<DeviceStatus>)
    ensures Play(lib, net, s, Absorbs(statuses)) == FillAll(lib, s, statuses)
    ensures Brought(Absorbs(statuses)) == statuses && Quiet(Absorbs(statuses))
    ensures FillAll(lib, s, statuses).ahead == s.ahead
    decreases |statuses|
  {
    hide Fill, Play, Brought, Absorbs;
    AbsorbsNext(statuses);
    if statuses == [] {
      assert Play(lib, net, s, []) == s && Brought([]) == [] by { PlayNothing(lib, net, s); }
    } else {
      var n := |statuses| - 1;
      AbsorbsPlay(lib, net, s, statuses[..n]);
      PlayNext(lib, net, s, Absorbs(statuses[..n]), Absorb(statuses[n]));
      StepKeepsAhead(lib, net, FillAll(lib, s, statuses[..n]), Absorb(statuses[n]));
    }
  }

  /** The schedule is cut, and the statuses taken off it are absorbed. */
  lemma LeadsTaking(lib: Library, net: Network, s: Session, ahead: seq<seq<DeviceStatus>>, statuses: seq<DeviceStatus>)
    requires statuses + Flatten(ahead) == Flatten(s.ahead)
    ensures Leads(lib, net, s, [Schedule(ahead)] + Absorbs(statuses), FillAll(lib, s.(ahead := ahead), statuses))
  {
    hide Play, Brought, Flatten, FillAll;
    var t := s.(ahead := ahead);
    PlayOne(lib, net, s, Schedule(ahead));
    AbsorbsPlay(lib, net, t, statuses);
    PlayAppend(lib, net, s, [Schedule(ahead)], Absorbs(statuses));
    assert [] + statuses == statuses;
  }

  function PauseScript(s: Session): seq<Op> {
    if s.ahead == [] then [] else [Schedule(s.ahead[1..])] + Absorbs(s.ahead[0])
  }

  lemma PauseLeads(lib: Library, net: Network, s: Session)
    ensures Leads(lib, net, s, PauseScript(s), Pause(lib, s))
  {
    hide Leads, FillAll, Absorbs;
    if s.ahead == [] {
      LeadsNowhere(lib, net, s);
    } else {
      LeadsTaking(lib, net, s, s.ahead[1..], s.ahead[0]);
    }
  }

  function FinishScript(s: Session): seq<Op> {
    [Schedule([])] + Absorbs(Flatten(s.ahead))
  }

  lemma FinishLeads(lib: Library, net: Network, s: Session)
    ensures Leads(lib, net, s, FinishScript(s), Finish(lib, s)) && Finish(lib, s).ahead == []
  {
    hide Leads, FillAll, Absorbs;
    assert Flatten(s.ahead) + Flatten([]) == Flatten(s.ahead);
    LeadsTaking(lib, net, s, [], Flatten(s.ahead));
    AbsorbsPlay(lib, net, s.(ahead := []), Flatten(s.ahead));
  }

  function AwaitScript(s: Session): seq<Op> {
    [Listening] + PauseScript(s.(received := s.received + 1))
  }

  lemma AwaitLeads(lib: Library, net: Network, s: Session)
    ensures Leads(lib, net, s, AwaitScript(s), Await(lib, s))
  {
    hide Leads, Pause, PauseScript;
    LeadsBy(lib, net, s, Listening);
    PauseLeads(lib, net, s.(received := s.received + 1));
    LeadsOn(lib, net, s, [Listening], s.(received := s.received + 1), PauseScript(s.(received := s.received + 1)), Await(lib, s));
  }

  function FirstScript(net: Network, s: Session, devices: seq<DeviceId>): seq<Op> {
    [Greeting(devices)] + if net.sends(|s.outbox|) then AwaitScript(Greet(net, s, devices)) else []
  }

  lemma FirstLeads(lib: Library, net: Network, s: Session, devices: seq<DeviceId>)
    ensures Leads(lib, net, s, FirstScript(net, s, devices), FirstStep(lib, net, s, devices).session)
  {
    hide Leads, Await, AwaitScript, ConnectResponseOutcome;
    var t := Greet(net, s, devices);
    LeadsBy(lib, net, s, Greeting(devices));
    LeadsNowhere(lib, net, t);
    AwaitLeads(lib, net, t);
    var more := if net.sends(|s.outbox|) then AwaitScript(t) else [];
    LeadsOn(lib, net, s, [Greeting(devices)], t, more, FirstStep(lib, net, s, devices).session);
  }

  function LastStatus(s: Session, device: DeviceId): Op
    requires IsRegistered(s, device)
  {
    var state := s.errors[device.identity.moduleNumber][device.identity];
    Send(DeviceStatus(device, state.lastStatus), Connecting, state.errorMessage)
  }

  function SendLastScript(lib: Library, s: Session, device: DeviceId): seq<Op> {
    var looked := Pause(lib, s);
    PauseScript(s) + if IsRegistered(looked, device) then PauseScript(looked) + [LastStatus(looked, device)] else []
  }

  lemma SendLastLeads(lib: Library, net: Network, s: Session, device: DeviceId)
    ensures Leads(lib, net, s, SendLastScript(lib, s, device), SendLast(lib, net, s, device).session)
  {
    hide Leads, Pause, PauseScript, IsRegistered, SendStatus;
    var looked := Pause(lib, s);
    PauseLeads(lib, net, s);
    if IsRegistered(looked, device) {
      var t := Pause(lib, looked);
      PauseLeads(lib, net, looked);
      var op := LastStatus(looked, device);
      LeadsBy(lib, net, t, op);
      LeadsOn(lib, net, looked, PauseScript(looked), t, [op], Step(lib, net, t, op));
      LeadsOn(lib, net, s, PauseScript(s), looked, PauseScript(looked) + [op], Step(lib, net, t, op));
    } else {
      assert PauseScript(s) + [] == PauseScript(s);
    }
  }

  function SendAllScript(lib: Library, net: Network, s: Session, devices: seq<DeviceId>): seq<Op> {
    if devices == [] then []
    else
      var n := |devices| - 1;
      var before := SendAll(lib, net, s, devices[..n]);
      SendAllScript(lib, net, s, devices[..n]) + if before.rc == Ok then SendLastScript(lib, before.session, devices[n]) else []
  }

  lemma {:induction false} SendAllLeads(lib: Library, net: Network, s: Session, devices: seq<DeviceId>)
    ensures Leads(lib, net, s, SendAllScript(lib, net, s, devices), SendAll(lib, net, s, devices).session)
    decreases |devices|
  {
    hide Leads, SendLast, SendLastScript;
    LeadsNowhere(lib, net, s);
    if devices != [] {
      var n := |devices| - 1;
      var script, before := SendAllScript(lib, net, s, devices[..n]), SendAll(lib, net, s, devices[..n]);
      SendAllLeads(lib, net, s, devices[..n]);
      SendLastLeads(lib, net, before.session, devices[n]);
      LeadsOn(lib, net, s, script, before.session, SendLastScript(lib, before.session, devices[n]),
              SendLast(lib, net, before.session, devices[n]).session);
      assert script + [] == script;
    }
  }

  function StatusResponseScript(lib: Library, net: Network, s: Session): seq<Op> {
    AwaitScript(s) +
    match net.inbox(s.received)
    case Some(StatusResponse(session, ok, counter)) =>
      if ok && session == Await(lib, s).id then [Acknowledgement(counter)] else []
    case _ => []
  }

  lemma StatusResponseLeads(lib: Library, net: Network, s: Session)
    ensures Leads(lib, net, s, StatusResponseScript(lib, net, s), AwaitStatusResponse(lib, net, s).session)
  {
    hide Leads, Await, AwaitScript, Acknowledge;
    var t := Await(lib, s);
    AwaitLeads(lib, net, s);
    assert AwaitScript(s) + [] == AwaitScript(s);
    match net.inbox(s.received)
    case Some(StatusResponse(session, ok, counter)) =>
      LeadsBy(lib, net, t, Acknowledgement(counter));
      LeadsOn(lib, net, s, AwaitScript(s), t, [Acknowledgement(counter)], Acknowledge(t, counter));
    case _ =>
  }

  function StatusResponsesScript(lib: Library, net: Network, s: Session, n: nat): seq<Op> {
    if n == 0 then []
    else
      var before := AwaitStatusResponses(lib, net, s, n - 1);
      StatusResponsesScript(lib, net, s, n - 1) + if before.rc == Ok then StatusResponseScript(lib, net, before.session) else []
  }

  lemma {:induction false} StatusResponsesLead(lib: Library, net: Network, s: Session, n: nat)
    ensures Leads(lib, net, s, StatusResponsesScript(lib, net, s, n), AwaitStatusResponses(lib, net, s, n).session)
  {
    hide Leads, AwaitStatusResponse, StatusResponseScript;
    LeadsNowhere(lib, net, s);
    if n > 0 {
      var script, before := StatusResponsesScript(lib, net, s, n - 1), AwaitStatusResponses(lib, net, s, n - 1);
      StatusResponsesLead(lib, net, s, n - 1);
      StatusResponseLeads(lib, net, before.session);
      LeadsOn(lib, net, s, script, before.session, StatusResponseScript(lib, net, before.session),
              AwaitStatusResponse(lib, net, before.session).session);
      assert script + [] == script;
    }
  }

  function CommandScript(lib: Library, net: Network, s: Session): seq<Op> {
    AwaitScript(s) +
    match net.inbox(s.received)
    case Some(Command(session, counter, command)) => [CommandArrival(session, counter, command)]
    case _ => []
  }

  lemma CommandLeads(lib: Library, net: Network, s: Session)
    ensures Leads(lib, net, s, CommandScript(lib, net, s), AwaitCommand(lib, net, s).session)
  {
    hide Leads, Await, AwaitScript, HandleCommand, HandleCommandOutcome;
    var t := Await(lib, s);
    AwaitLeads(lib, net, s);
    assert AwaitScript(s) + [] == AwaitScript(s);
    match net.inbox(s.received)
    case Some(Command(session, counter, command)) =>
      LeadsBy(lib, net, t, CommandArrival(session, counter, command));
      LeadsOn(lib, net, s, AwaitScript(s), t, [CommandArrival(session, counter, command)],
              HandleCommand(lib, t, session, counter, command));
    case _ =>
  }

  function ThirdScript(lib: Library, net: Network, s: Session, n: nat): seq<Op> {
    if n == 0 then []
    else
      var before := ThirdStep(lib, net, s, n - 1);
      ThirdScript(lib, net, s, n - 1) + if before.rc == Ok then CommandScript(lib, net, before.session) else []
  }

  lemma {:induction false} ThirdLeads(lib: Library, net: Network, s: Session, n: nat)
    ensures Leads(lib, net, s, ThirdScript(lib, net, s, n), ThirdStep(lib, net, s, n).session)
  {
    hide Leads, AwaitCommand, CommandScript;
    LeadsNowhere(lib, net, s);
    if n > 0 {
      var script, before := ThirdScript(lib, net, s, n - 1), ThirdStep(lib, net, s, n - 1);
      ThirdLeads(lib, net, s, n - 1);
      CommandLeads(lib, net, before.session);
      LeadsOn(lib, net, s, script, before.session, CommandScript(lib, net, before.session), AwaitCommand(lib, net, before.session).session);
      assert script + [] == script;
    }
  }

  function SecondScript(lib: Library, net: Network, s: Session, devices: seq<DeviceId>): seq<Op> {
    var sent := SendAll(lib, net, s, devices);
    SendAllScript(lib, net, s, devices) + if sent.rc == Ok then StatusResponsesScript(lib, net, sent.session, |devices|) else []
  }

  lemma SecondLeads(lib: Library, net: Network, s: Session, devices: seq<DeviceId>)
    ensures Leads(lib, net, s, SecondScript(lib, net, s, devices), SecondStep(lib, net, s, devices).session)
  {
    hide Leads, SendAll, SendAllScript, AwaitStatusResponses, StatusResponsesScript;
    var script, sent := SendAllScript(lib, net, s, devices), SendAll(lib, net, s, devices);
    SendAllLeads(lib, net, s, devices);
    StatusResponsesLead(lib, net, sent.session, |devices|);
    LeadsOn(lib, net, s, script, sent.session, StatusResponsesScript(lib, net, sent.session, |devices|),
            AwaitStatusResponses(lib, net, sent.session, |devices|).session);
    assert script + [] == script;
  }

  function AllStepsScript(lib: Library, net: Network, s: Session, devices: seq<DeviceId>): seq<Op> {
    var first := FirstStep(lib, net, s, devices);
    var second := SecondStep(lib, net, first.session, devices);
    FirstScript(net, s, devices) +
    if first.rc != Ok then []
    else
      SecondScript(lib, net, first.session, devices) +
      if second.rc != Ok then [] else ThirdScript(lib, net, second.session, |devices|)
  }

  lemma AllStepsLead(lib: Library, net: Network, s: Session, devices: seq<DeviceId>)
    ensures Leads(lib, net, s, AllStepsScript(lib, net, s, devices), AllSteps(lib, net, s, devices).session)
  {
    hide Leads, FirstStep, FirstScript, SecondStep, SecondScript, ThirdStep, ThirdScript;
    var one, first := FirstScript(net, s, devices), FirstStep(lib, net, s, devices);
    FirstLeads(lib, net, s, devices);
    var two, second := SecondScript(lib, net, first.session, devices), SecondStep(lib, net, first.session, devices);
    SecondLeads(lib, net, first.session, devices);
    var three, third := ThirdScript(lib, net, second.session, |devices|), ThirdStep(lib, net, second.session, |devices|);
    ThirdLeads(lib, net, second.session, |devices|);
    LeadsOn(lib, net, first.session, two, second.session, three, third.session);
    LeadsOn(lib, net, s, one, first.session, two, second.session);
    LeadsOn(lib, net, s, one, first.session, two + three, third.session);
    assert one + [] == one && two + [] == two;
  }

  // The connect sequence.

  function BeginScript(s: Session, meanwhile: seq<seq<DeviceStatus>>): seq<Op> {
    [Relink(if s.link == NotInitialized then NotConnected else s.link), Opening, Schedule(meanwhile)]
  }

  /** From the begin of the attempt to the end of its last pause. */
  function AttemptScript(lib: Library, net: Network, s: Session, devices: seq<DeviceId>, open: bool): seq<Op> {
    var t := Pause(lib, s);
    PauseScript(s) +
    if !open then FinishScript(t)
    else
      var u := t.(link := InSequence);
      [Relink(InSequence)] + (AllStepsScript(lib, net, u, devices) + FinishScript(AllSteps(lib, net, u, devices).session))
  }

  function Attempted(lib: Library, net: Network, s: Session, devices: seq<DeviceId>, open: bool): Session {
    var t := Pause(lib, s);
    if !open then Finish(lib, t) else Finish(lib, AllSteps(lib, net, t.(link := InSequence), devices).session)
  }

  function Verdict(lib: Library, net: Network, s: Session, meanwhile: seq<seq<DeviceStatus>>, devices: seq<DeviceId>): seq<Op> {
    if !net.opens(s.attempts) then []
    else if Initialize(lib, net, s, meanwhile, devices).rc == Ok then [Relink(Connected), ForgetErrors]
    else [Relink(NotConnected)]
  }

  function InitializeScript(lib: Library, net: Network, s: Session, meanwhile: seq<seq<DeviceStatus>>, devices: seq<DeviceId>): seq<Op> {
    BeginScript(s, meanwhile)
    + AttemptScript(lib, net, Begun(s, meanwhile), devices, net.opens(s.attempts))
    + Verdict(lib, net, s, meanwhile, devices)
  }

  lemma AttemptLeads(lib: Library, net: Network, s: Session, devices: seq<DeviceId>, open: bool)
    ensures Leads(lib, net, s, AttemptScript(lib, net, s, devices, open), Attempted(lib, net, s, devices, open))
    ensures Attempted(lib, net, s, devices, open).ahead == []
  {
    hide Leads, Pause, PauseScript, Finish, FinishScript, AllSteps, AllStepsScript;
    var t := Pause(lib, s);
    PauseLeads(lib, net, s);
    if !open {
      FinishLeads(lib, net, t);
      LeadsOn(lib, net, s, PauseScript(s), t, FinishScript(t), Finish(lib, t));
    } else {
      var u := t.(link := InSequence);
      var all := AllSteps(lib, net, u, devices).session;
      LeadsBy(lib, net, t, Relink(InSequence));
      AllStepsLead(lib, net, u, devices);
      FinishLeads(lib, net, all);
      LeadsOn(lib, net, u, AllStepsScript(lib, net, u, devices), all, FinishScript(all), Finish(lib, all));
      LeadsOn(lib, net, t, [Relink(InSequence)], u, AllStepsScript(lib, net, u, devices) + FinishScript(all), Finish(lib, all));
      LeadsOn(lib, net, s, PauseScript(s), t, [Relink(InSequence)] + (AllStepsScript(lib, net, u, devices) + FinishScript(all)),
              Finish(lib, all));
    }
  }

  lemma BeginPlays(lib: Library, net: Network, s: Session, meanwhile: seq<seq<DeviceStatus>>)
    ensures Play(lib, net, s, BeginScript(s, meanwhile)) == Begun(s, meanwhile)
    ensures Brought(BeginScript(s, meanwhile)) == [] && Quiet(BeginScript(s, meanwhile))
  {
    hide Play, Brought;
    var relink := Relink(if s.link == NotInitialized then NotConnected else s.link);
    PlayOne(lib, net, s, relink);
    PlayNext(lib, net, s, [relink], Opening);
    PlayNext(lib, net, s, [relink, Opening], Schedule(meanwhile));
    assert [relink] + [Opening] == [relink, Opening];
    assert [relink, Opening] + [Schedule(meanwhile)] == BeginScript(s, meanwhile);
  }

  lemma VerdictPlays(lib: Library, net: Network, s: Session, meanwhile: seq<seq<DeviceStatus>>, devices: seq<DeviceId>)
    ensures var end := Attempted(lib, net, Begun(s, meanwhile), devices, net.opens(s.attempts));
            var script, r := Verdict(lib, net, s, meanwhile, devices), Initialize(lib, net, s, meanwhile, devices);
            && Play(lib, net, end, script) == r.session
            && Brought(script) == []
            && (r.rc != Ok ==> Quiet(script))
  {
    hide Play, Brought, Pause, Finish, AllSteps, Wipe;
    var end := Attempted(lib, net, Begun(s, meanwhile), devices, net.opens(s.attempts));
    PlayNothing(lib, net, end);
    PlayOne(lib, net, end, Relink(NotConnected));
    PlayOne(lib, net, end, Relink(Connected));
    PlayNext(lib, net, end, [Relink(Connected)], ForgetErrors);
    assert [Relink(Connected)] + [ForgetErrors] == [Relink(Connected), ForgetErrors];
  }

  /**
    A connect sequence, with everything absorbed at its pauses, is a run of single operations. It takes in
    exactly what was scheduled, in order, and forgets the errors only when it succeeds.
   */
  lemma InitializePlays(lib: Library, net: Network, s: Session, meanwhile: seq<seq<DeviceStatus>>, devices: seq<DeviceId>)
    ensures var script, r := InitializeScript(lib, net, s, meanwhile, devices), Initialize(lib, net, s, meanwhile, devices);
            && Play(lib, net, s, script) == r.session
            && Brought(script) == Flatten(meanwhile)
            && (r.rc != Ok ==> Quiet(script))
  {
    hide Play, Brought, Flatten, IsQuiet, BeginScript, AttemptScript, Verdict, Attempted, Initialize;
    var begin, begun := BeginScript(s, meanwhile), Begun(s, meanwhile);
    var open := net.opens(s.attempts);
    var attempt, end := AttemptScript(lib, net, begun, devices, open), Attempted(lib, net, begun, devices, open);
    BeginPlays(lib, net, s, meanwhile);
    AttemptLeads(lib, net, begun, devices, open);
    VerdictPlays(lib, net, s, meanwhile, devices);
    PlayAppend(lib, net, s, begin, attempt);
    PlayAppend(lib, net, s, begin + attempt, Verdict(lib, net, s, meanwhile, devices));
    FlattenNothing();
    assert [] + Brought(attempt) + [] == Brought(attempt) == Brought(attempt) + [];
  }

  lemma FlattenNothing()
    ensures Flatten([]) == []
  {
  }

  // The receiving loop.

  function ReceiveOneScript(net: Network, s: Session): seq<Op> {
    if s.link == InSequence then []
    else
      [Listening] +
      if net.notified(s.received) || s.link == NotConnected then []
      else match net.inbox(s.received)
        case Some(Command(session, counter, command)) => [CommandArrival(session, counter, command)]
        case Some(StatusResponse(_, _, counter)) => [Acknowledgement(counter)]
        case _ => []
  }

  function ReceiveScript(lib: Library, net: Network, s: Session, rounds: nat): seq<Op> {
    if rounds == 0 then []
    else
      var before := Receive(lib, net, s, rounds - 1);
      ReceiveScript(lib, net, s, rounds - 1) + if before.dropped == None then ReceiveOneScript(net, before.session) else []
  }

  lemma ReceiveOneLeads(lib: Library, net: Network, s: Session)
    ensures Leads(lib, net, s, ReceiveOneScript(net, s), ReceiveOne(lib, net, s).session)
  {
    hide Leads, HandleCommand, HandleCommandOutcome, Acknowledge, AcknowledgedWell;
    var t := s.(received := s.received + 1);
    LeadsNowhere(lib, net, s);
    LeadsBy(lib, net, s, Listening);
    assert [Listening] + [] == [Listening];
    match net.inbox(s.received)
    case Some(Command(session, counter, command)) =>
      LeadsBy(lib, net, t, CommandArrival(session, counter, command));
      LeadsOn(lib, net, s, [Listening], t, [CommandArrival(session, counter, command)],
              HandleCommand(lib, t, session, counter, command));
    case Some(StatusResponse(_, _, counter)) =>
      LeadsBy(lib, net, t, Acknowledgement(counter));
      LeadsOn(lib, net, s, [Listening], t, [Acknowledgement(counter)], Acknowledge(t, counter));
    case _ =>
  }

  /** The receiving loop is a run of single operations, and brings no statuses. */
  lemma {:induction false} ReceiveLeads(lib: Library, net: Network, s: Session, rounds: nat)
    ensures Leads(lib, net, s, ReceiveScript(lib, net, s, rounds), Receive(lib, net, s, rounds).session)
    ensures Receive(lib, net, s, rounds).session.ahead == s.ahead
  {
    hide Leads, ReceiveOne, ReceiveOneScript;
    LeadsNowhere(lib, net, s);
    if rounds > 0 {
      var script, before := ReceiveScript(lib, net, s, rounds - 1), Receive(lib, net, s, rounds - 1);
      ReceiveLeads(lib, net, s, rounds - 1);
      ReceiveOneLeads(lib, net, before.session);
      ReceiveOneKeepsAhead(lib, net, before.session);
      LeadsOn(lib, net, s, script, before.session, ReceiveOneScript(net, before.session), ReceiveOne(lib, net, before.session).session);
      assert script + [] == script;
    }
  }

  lemma ReceiveOneKeepsAhead(lib: Library, net: Network, s: Session)
    ensures ReceiveOne(lib, net, s).session.ahead == s.ahead
  {
    hide InOrder, Acknowledged, AcknowledgedWell, Listed;
  }

  /**
    Once the loop has ended it takes in nothing more, and the command it ended on, if it was out of order,
    has left no trace.
   */
  lemma {:induction false} RejectionEndsTheLoop(lib: Library, net: Network, s: Session, rounds: nat, more: nat)
    ensures Receive(lib, net, s, rounds).dropped != None ==>
              Receive(lib, net, s, rounds + more) == Receive(lib, net, s, rounds)
    ensures var t := Receive(lib, net, s, rounds);
            t.dropped == None && t.session.link == Connected && !net.notified(t.session.received) ==>
              match net.inbox(t.session.received)
              case Some(Command(session, counter, command)) =>
                !InOrder(t.session, session, counter) ==>
                  Receive(lib, net, s, rounds + 1 + more)
                  == Reception(t.session.(received := t.session.received + 1), Some(true))
              case _ => true
    decreases more
  {
    hide Supports, AcknowledgedWell;
    if more > 0 {
      RejectionEndsTheLoop(lib, net, s, rounds, more - 1);
    }
  }
}
