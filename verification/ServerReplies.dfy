/**
  What a client of the internal server goes through: it is answered before its next message is read, and a connection
  that has failed reads nothing more.
 */
module ServerReplies {
  import opened Common
  import opened ConnectionTable
  import opened ServerRuns

  /** What becomes of a message, or of the end of a read, on a connection that was ready for one. */
  predicate IsInput(step: Step, c: nat) {
    step == BadMessage(c) || step == ReadError(c)
    || (step.ConnectMessage? && step.c == c) || (step.StatusMessage? && step.c == c)
  }

  /**
    A connect is taken exactly from a connection without an identity, for an identity that nobody holds at as good a
    priority; a status exactly from a connection with an identity. Then the connection waits. Anything else fails it,
    and the module handler is told nothing.
   */
  lemma OnlyFittingMessagesAreTaken(steps: seq<Step>, c: nat, step: Step)
    requires InPhase(Run(steps), c, Idle) && IsInput(step, c)
    ensures var s, t := Run(steps), Run(steps + [step]);
            var fits := match step
                        case ConnectMessage(_, device) =>
                          && s.conns[c].device == None
                          && (device.identity in s.table.slots ==>
                                device.priority < s.table.slots[device.identity].device.priority)
                        case StatusMessage(_, _) => s.conns[c].device.Some?
                        case _ => false;
            && InPhase(t, c, if fits then Waiting else Failing)
            && (!fits ==> t.table == s.table && t.conns[c].device == s.conns[c].device)
            && (fits && step.ConnectMessage? ==> Holds(t, c, step.device) && t.conns[c].device == Some(step.device))
            && (fits && step.StatusMessage? ==> t.table == s.table.(log := s.table.log + [StatusReceived(step.status)]))
  {
    hide Run, Drop;
    RunSnoc(steps, step);
    MessageStartsIdentifiedAndReady(steps, c);
  }

  /** A connection that is not answered in time fails. */
  lemma UnansweredFails(steps: seq<Step>, c: nat)
    requires InPhase(Run(steps), c, Waiting) && !Run(steps).conns[c].ready
    ensures InPhase(Run(steps + [ResponseTimeout(c)]), c, Failing)
  {
    hide Run;
    RunSnoc(steps, ResponseTimeout(c));
  }

  ghost predicate IsDown(s: Server, c: nat) {
    InPhase(s, c, Failing) || InPhase(s, c, Closed)
  }

  /** A connection that has failed starts no further message, whatever happens. */
  lemma {:induction false} FailedStaysDown(steps: seq<Step>, more: seq<Step>, c: nat)
    requires IsDown(Run(steps), c)
    ensures IsDown(Run(steps + more), c)
    decreases |more|
  {
    hide Run, Admit, Drop;
    if more == [] {
      assert steps + more == steps;
    } else {
      var n := |more| - 1;
      FailedStaysDown(steps, more[..n], c);
      RunSnoc(steps + more[..n], more[n]);
      assert steps + more == (steps + more[..n]) + [more[n]];
    }
  }

  /** A response for the device that the connection holds, at its priority. */
  predicate Answers(s: Server, step: Step, c: nat) {
    && step.Response? && step.device.identity in s.table.slots
    && s.table.slots[step.device.identity].conn == c
    && s.table.slots[step.device.identity].device.priority == step.device.priority
  }

  /** Only a response makes a connection ready. */
  lemma {:induction false} FindAnswer(steps: seq<Step>, c: nat, i: nat, j: nat)
    requires i <= j <= |steps| && c < |Run(steps[..i]).conns| && !Run(steps[..i]).conns[c].ready
    requires c < |Run(steps[..j]).conns| && Run(steps[..j]).conns[c].ready
    ensures exists k :: i <= k < j && Answers(Run(steps[..k]), steps[k], c)
    decreases j - i
  {
    hide Run, Admit, Drop, Judge;
    RunNext(steps, j - 1);
    var before := Run(steps[..j - 1]);
    ConnsGrow(steps, i, j - 1);
    if before.conns[c].ready {
      FindAnswer(steps, c, i, j - 1);
    } else {
      assert Answers(before, steps[j - 1], c);
    }
  }

  lemma {:induction false} ConnsGrow(steps: seq<Step>, i: nat, j: nat)
    requires i <= j <= |steps|
    ensures |Run(steps[..i]).conns| <= |Run(steps[..j]).conns|
    decreases j - i
  {
    hide Run, Admit, Drop, Judge;
    if i < j {
      ConnsGrow(steps, i, j - 1);
      RunNext(steps, j - 1);
    }
  }

  /**
    A message is answered before the next one of its client is read: between a message that was taken and the time
    its connection is ready for another there is a response for the device that the connection then holds.
   */
  lemma AnsweredBeforeNextMessage(steps: seq<Step>, c: nat, i: nat, j: nat)
    requires i < j <= |steps| && IsInput(steps[i], c)
    requires InPhase(Run(steps[..i]), c, Idle) && InPhase(Run(steps[..i + 1]), c, Waiting) && InPhase(Run(steps[..j]), c, Idle)
    ensures exists k :: i < k < j && Answers(Run(steps[..k]), steps[k], c)
  {
    hide Run, Admit, Drop, Judge;
    RunNext(steps, i);
    MessageStartsIdentifiedAndReady(steps[..i], c);
    MessageStartsIdentifiedAndReady(steps[..j], c);
    IdentityLasts(steps, c, i + 1, j);
    FindAnswer(steps, c, i + 1, j);
  }

  lemma {:induction false} IdentityLasts(steps: seq<Step>, c: nat, i: nat, j: nat)
    requires i <= j <= |steps| && c < |Run(steps[..i]).conns| && Run(steps[..i]).conns[c].device.Some?
    ensures c < |Run(steps[..j]).conns| && Run(steps[..j]).conns[c].device == Run(steps[..i]).conns[c].device
    decreases j - i
  {
    hide Run;
    if i < j {
      IdentityLasts(steps, c, i, j - 1);
      IdentityIsFinal(steps[..j - 1], steps[j - 1], c);
      assert steps[..j] == steps[..j - 1] + [steps[j - 1]];
    }
  }
}
