/** One lease, from request to completion: the runner and the heartbeat loop
    as two processes that interleave at their awaits and share a stop event. */
module LeaseExecution {
  import opened Traces

  datatype Status = Completed | Failed

  /** What the scheduler, the executor and the stop event see. */
  datatype Call =
    | Beat
    | Progress
    | Execute
    | Stop
    | Complete(status: Status)
    | RejectJob

  datatype End = Stopped | Lost | Broken | Cancelled

  /** The heartbeat task: looking at the stop event, waiting on it, or awaiting an answer. */
  datatype Heartbeat = Absent | Looking | Waiting | Beating | Ended(end: End)

  datatype Outcome = NotGranted | InvalidJob | LeaseLost | Finished(status: Status) | Raised

  /** Where the runner awaits. */
  datatype Runner =
    | Requesting
    | Rejecting
    | Emitting
    | Reporting
    | Executing
    | Joining(status: Status)
    | Completing(status: Status)
    | CleaningUp
    | Done(outcome: Outcome)

  datatype State = State(runner: Runner, heartbeat: Heartbeat, cancelled: bool, calls: seq<Call>)

  const START := State(Requesting, Absent, false, [])

  datatype Step =
    | Refused
    | Granted(validJob: bool)
    | RejectAnswered
    | Emitted
    | Reported
    | Executed(status: Status)
    | Joined
    | CompleteAnswered
    | RunnerRaises
    | CleanedUp
    | Looked
    | StopSeen
    | TimedOut
    | BeatAnswered(ok: bool)
    | BeatRaises
    | CancelDelivered

  predicate StopIsSet(s: State) {
    Stop in s.calls
  }

  predicate Live(h: Heartbeat) {
    h.Looking? || h.Waiting? || h.Beating?
  }

  predicate Enabled(s: State, step: Step) {
    match step
    case Refused => s.runner.Requesting?
    case Granted(_) => s.runner.Requesting?
    case RejectAnswered => s.runner.Rejecting?
    case Emitted => s.runner.Emitting?
    case Reported => s.runner.Reporting?
    case Executed(_) => s.runner.Executing?
    case Joined => s.runner.Joining? && s.heartbeat.Ended?
    case CompleteAnswered => s.runner.Completing?
    case RunnerRaises => !s.runner.Done? && !s.runner.CleaningUp?
    case CleanedUp => s.runner.CleaningUp? && !Live(s.heartbeat)
    case Looked => s.heartbeat.Looking?
    case StopSeen => s.heartbeat.Waiting? && StopIsSet(s)
    case TimedOut => s.heartbeat.Waiting?
    case BeatAnswered(_) => s.heartbeat.Beating?
    case BeatRaises => s.heartbeat.Beating?
    case CancelDelivered => s.cancelled && Live(s.heartbeat)
  }

  function SetStop(calls: seq<Call>): seq<Call> {
    if Stop in calls then calls else calls + [Stop]
  }

  /** Leaving the `try` block: stop the heartbeat, and cancel it if it still runs. */
  function Unwind(s: State): State {
    if s.heartbeat.Absent? then s.(runner := Done(Raised))
    else if Live(s.heartbeat) then s.(runner := CleaningUp, cancelled := true, calls := SetStop(s.calls))
    else s.(runner := Done(Raised), calls := SetStop(s.calls))
  }

  /** Joining a heartbeat that ended. */
  function Join(s: State): State
    requires s.runner.Joining? && s.heartbeat.Ended?
  {
    match s.heartbeat.end
    case Lost => s.(runner := Done(LeaseLost))
    case Stopped => s.(runner := Completing(s.runner.status), calls := s.calls + [Complete(s.runner.status)])
    case Broken => Unwind(s)
    case Cancelled => Unwind(s)
  }

  function Apply(s: State, step: Step): State
    requires Enabled(s, step)
  {
    match step
    case Refused => s.(runner := Done(NotGranted))
    case Granted(validJob) =>
      if validJob then s.(runner := Emitting, heartbeat := Looking)
      else s.(runner := Rejecting, calls := s.calls + [RejectJob])
    case RejectAnswered => s.(runner := Done(InvalidJob))
    case Emitted => s.(runner := Reporting, calls := s.calls + [Progress])
    case Reported => s.(runner := Executing, calls := s.calls + [Execute])
    case Executed(status) => s.(runner := Joining(status), calls := SetStop(s.calls))
    case Joined => Join(s)
    case CompleteAnswered => s.(runner := Done(Finished(s.runner.status)))
    case RunnerRaises => Unwind(s)
    case CleanedUp => s.(runner := Done(Raised))
    case Looked => s.(heartbeat := if StopIsSet(s) then Ended(Stopped) else Waiting)
    case StopSeen => s.(heartbeat := Ended(Stopped))
    case TimedOut => s.(heartbeat := Beating, calls := s.calls + [Beat])
    case BeatAnswered(ok) => s.(heartbeat := if ok then Looking else Ended(Lost))
    case BeatRaises => s.(heartbeat := Ended(Broken))
    case CancelDelivered => s.(heartbeat := Ended(Cancelled))
  }

  // ---- Runs -------------------------------------------------------------

  /** The state after any interleaving; a step that is not enabled does nothing. */
  ghost function After(steps: seq<Step>): State {
    if steps == [] then START
    else
      var before, step := After(steps[..|steps| - 1]), steps[|steps| - 1];
      if Enabled(before, step) then Apply(before, step) else before
  }

  /** The runner's own calls, in order. */
  ghost function OwnCalls(calls: seq<Call>): seq<Call> {
    if calls == [] then []
    else
      var before, last := OwnCalls(calls[..|calls| - 1]), calls[|calls| - 1];
      if last.Beat? then before else before + [last]
  }

  ghost function Completions(): Call -> bool {
    (c: Call) => c.Complete? || c.RejectJob?
  }

  /** Heartbeats sent since the stop event was set. */
  ghost function BeatsAfterStop(calls: seq<Call>): nat {
    if calls == [] then 0
    else
      var before, last := calls[..|calls| - 1], calls[|calls| - 1];
      BeatsAfterStop(before) + if last.Beat? && Stop in before then 1 else 0
  }

  ghost predicate Sent(own: seq<Call>, status: Status) {
    own == [Progress, Execute, Stop, Complete(status)]
  }

  /** The runner stopped before it sent anything final. */
  ghost predicate Interrupted(own: seq<Call>) {
    own == [Stop] || own == [Progress, Stop] || own == [Progress, Execute, Stop]
  }

  /** The runner's own calls, by how far it got. */
  ghost predicate OwnCallsFit(runner: Runner, own: seq<Call>) {
    match runner
    case Requesting => own == []
    case Rejecting => own == [RejectJob]
    case Emitting => own == []
    case Reporting => own == [Progress]
    case Executing => own == [Progress, Execute]
    case Joining(_) => own == [Progress, Execute, Stop]
    case Completing(status) => Sent(own, status)
    case CleaningUp => Interrupted(own)
    case Done(NotGranted) => own == []
    case Done(InvalidJob) => own == [RejectJob]
    case Done(LeaseLost) => own == [Progress, Execute, Stop]
    case Done(Finished(status)) => Sent(own, status)
    case Done(Raised) =>
      own == [] || own == [RejectJob] || Interrupted(own) || exists status :: Sent(own, status)
  }

  /** The heartbeat exists from a valid job on, and is over once the runner completes or returns. */
  ghost predicate HeartbeatFits(s: State) {
    match s.runner
    case Requesting => s.heartbeat == Absent
    case Rejecting => s.heartbeat == Absent
    case Completing(_) => s.heartbeat == Ended(Stopped)
    case Done(outcome) => FinalHeartbeat(s, outcome)
    case _ => s.heartbeat != Absent
  }

  ghost predicate FinalHeartbeat(s: State, outcome: Outcome) {
    match outcome
    case LeaseLost => s.heartbeat == Ended(Lost)
    case Finished(_) => s.heartbeat == Ended(Stopped)
    case Raised =>
      && (s.heartbeat == Absent || s.heartbeat.Ended?)
      && (s.heartbeat == Absent ==> OwnCalls(s.calls) == [] || OwnCalls(s.calls) == [RejectJob])
      && ((exists status :: Sent(OwnCalls(s.calls), status)) ==> s.heartbeat == Ended(Stopped))
    case _ => s.heartbeat == Absent
  }

  /** Once a completion or rejection is sent, it is the last call. */
  ghost predicate EndsTheCalls(calls: seq<Call>) {
    forall i :: 0 <= i < |calls| && Completions()(calls[i]) ==> i == |calls| - 1
  }

  ghost predicate Inv(s: State) {
    && OwnCallsFit(s.runner, OwnCalls(s.calls))
    && HeartbeatFits(s)
    && EndsTheCalls(s.calls)
    && (s.cancelled ==> s.runner.CleaningUp? || s.runner.Done?)
    && BeatsAfterStop(s.calls) <= (if StopIsSet(s) && !s.heartbeat.Waiting? then 1 else 0)
    && (s.heartbeat.Absent? ==> Beat !in s.calls)
  }

  lemma {:induction false} OwnCallsAreCalls(calls: seq<Call>)
    ensures forall c :: c in OwnCalls(calls) <==> c in calls && !c.Beat?
  {
    if calls != [] {
      OwnCallsAreCalls(calls[..|calls| - 1]);
      assert calls == calls[..|calls| - 1] + [calls[|calls| - 1]];
    }
  }

  lemma OneMoreCall(calls: seq<Call>, c: Call)
    ensures OwnCalls(calls + [c]) == if c.Beat? then OwnCalls(calls) else OwnCalls(calls) + [c]
    ensures BeatsAfterStop(calls + [c]) == BeatsAfterStop(calls) + if c.Beat? && Stop in calls then 1 else 0
    ensures Stop in calls + [c] <==> Stop in calls || c == Stop
    ensures EndsTheCalls(calls + [c]) <==> (forall d :: d in calls ==> !Completions()(d))
  {
    var longer := calls + [c];
    assert longer[..|calls|] == calls && longer[|calls|] == c;
    if EndsTheCalls(longer) {
      forall i | 0 <= i < |calls| ensures !Completions()(calls[i]) {
        assert longer[i] == calls[i];
      }
    }
  }

  /** What a log of the runner's calls that has no final call says of the whole log. */
  lemma NothingFinal(calls: seq<Call>)
    requires !(exists c :: c in OwnCalls(calls) && Completions()(c))
    ensures forall d :: d in calls ==> !Completions()(d)
  {
    OwnCallsAreCalls(calls);
  }

  predicate IsHeartbeatStep(step: Step) {
    step.Looked? || step.StopSeen? || step.TimedOut? || step.BeatAnswered? || step.BeatRaises? || step.CancelDelivered?
  }

  lemma HeartbeatStepKeepsInv(s: State, step: Step)
    requires Inv(s) && Enabled(s, step) && IsHeartbeatStep(step)
    ensures Inv(Apply(s, step))
  {
    hide OwnCalls, BeatsAfterStop, EndsTheCalls, Completions, OwnCallsFit, Interrupted, Sent, SetStop;
    OneMoreCall(s.calls, Beat);
    UnfinishedCalls(s);
  }

  /** A failure before there is a heartbeat. */
  lemma UnwindBeforeHeartbeat(s: State)
    requires Inv(s) && !s.runner.Done? && !s.runner.CleaningUp? && s.heartbeat.Absent?
    ensures Inv(Unwind(s))
  {
    hide OwnCalls, BeatsAfterStop, EndsTheCalls, Completions;
    OwnCallsAreCalls(s.calls);
  }

  /** A failure after the completion was sent: the heartbeat ended as stopped. */
  lemma UnwindCompletion(s: State)
    requires Inv(s) && s.runner.Completing?
    ensures Inv(Unwind(s))
  {
    hide OwnCalls, BeatsAfterStop, EndsTheCalls, Completions;
    OwnCallsAreCalls(s.calls);
    assert Stop in OwnCalls(s.calls) && SetStop(s.calls) == s.calls;
    assert Sent(OwnCalls(s.calls), s.runner.status);
  }

  /** A failure in between sends the stop, unless it was sent. */
  lemma UnwindInBetween(s: State)
    requires Inv(s) && !s.runner.Done? && !s.runner.CleaningUp? && !s.runner.Completing? && !s.heartbeat.Absent?
    ensures Inv(Unwind(s))
  {
    hide OwnCalls, BeatsAfterStop, EndsTheCalls, Interrupted, Sent, SetStop;
    StoppingInterrupts(s);
    InterruptedIsNotSent(OwnCalls(SetStop(s.calls)));
  }

  lemma StoppingInterrupts(s: State)
    requires Inv(s) && !s.runner.Done? && !s.runner.CleaningUp? && !s.runner.Completing? && !s.heartbeat.Absent?
    ensures var calls := SetStop(s.calls);
      && Interrupted(OwnCalls(calls)) && EndsTheCalls(calls)
      && Stop in calls && BeatsAfterStop(calls) == BeatsAfterStop(s.calls)
  {
    hide OwnCalls, BeatsAfterStop, EndsTheCalls, Completions, FinalHeartbeat;
    OwnCallsAreCalls(s.calls);
    OneMoreCall(s.calls, Stop);
    UnfinishedCalls(s);
  }

  lemma InterruptedIsNotSent(own: seq<Call>)
    requires Interrupted(own)
    ensures own != [] && own != [RejectJob] && !exists status :: Sent(own, status)
  {
    assert |own| < 4;
  }

  lemma UnwindKeepsInv(s: State)
    requires Inv(s) && !s.runner.Done? && !s.runner.CleaningUp?
    ensures Inv(Unwind(s))
  {
    hide *;
    if s.heartbeat.Absent? { UnwindBeforeHeartbeat(s); }
    else if s.runner.Completing? { UnwindCompletion(s); }
    else { UnwindInBetween(s); }
  }

  lemma RunnerStepKeepsInv(s: State, step: Step, last: Call)
    requires Inv(s) && Enabled(s, step) && !IsHeartbeatStep(step) && !step.RunnerRaises? && !step.Joined?
    requires last == match step case Granted(_) => RejectJob case Emitted => Progress case Reported => Execute case _ => Stop
    ensures Inv(Apply(s, step))
  {
    hide OwnCalls, BeatsAfterStop, EndsTheCalls, Completions, Unwind, Join;
    OwnCallsAreCalls(s.calls);
    OneMoreCall(s.calls, last);
    UnfinishedCalls(s);
  }

  lemma JoinKeepsInv(s: State)
    requires Inv(s) && s.runner.Joining? && s.heartbeat.Ended?
    ensures Inv(Join(s))
  {
    hide OwnCalls, BeatsAfterStop, EndsTheCalls, Completions, Unwind;
    OwnCallsAreCalls(s.calls);
    OneMoreCall(s.calls, Complete(s.runner.status));
    UnfinishedCalls(s);
    UnwindKeepsInv(s);
  }

  lemma StepKeepsInv(s: State, step: Step)
    requires Inv(s) && Enabled(s, step)
    ensures Inv(Apply(s, step))
  {
    if IsHeartbeatStep(step) {
      HeartbeatStepKeepsInv(s, step);
    } else if step.RunnerRaises? {
      UnwindKeepsInv(s);
    } else if step.Joined? {
      JoinKeepsInv(s);
    } else {
      hide Inv;
      var last := match step case Granted(_) => RejectJob case Emitted => Progress case Reported => Execute case _ => Stop;
      RunnerStepKeepsInv(s, step, last);
    }
  }

  lemma UnfinishedCalls(s: State)
    requires OwnCallsFit(s.runner, OwnCalls(s.calls))
    ensures !s.runner.Rejecting? && !s.runner.Completing? && !s.runner.Done? ==> forall d :: d in s.calls ==> !Completions()(d)
  {
    hide OwnCalls;
    if !s.runner.Rejecting? && !s.runner.Completing? && !s.runner.Done? {
      NothingFinal(s.calls);
    }
  }

  lemma {:induction false} RunsKeepInv(steps: seq<Step>)
    ensures Inv(After(steps))
  {
    hide Inv, Apply;
    if steps == [] {
      StartIsFine();
    } else {
      var before, step := After(steps[..|steps| - 1]), steps[|steps| - 1];
      RunsKeepInv(steps[..|steps| - 1]);
      if Enabled(before, step) {
        StepKeepsInv(before, step);
      }
    }
  }

  lemma StartIsFine()
    ensures Inv(START)
  {
  }

  // ---- Main results -----------------------------------------------------

  /** A completion is sent only when the runner's calls before it are the
      progress report, the execution and the stop, in that order, and the
      heartbeat loop has ended as stopped. */
  lemma CompletionFollowsAStoppedHeartbeat(steps: seq<Step>, status: Status)
    requires Complete(status) in After(steps).calls
    ensures OwnCalls(After(steps).calls) == [Progress, Execute, Stop, Complete(status)]
    ensures After(steps).heartbeat == Ended(Stopped)
    ensures After(steps).runner == Completing(status) || After(steps).runner in [Done(Finished(status)), Done(Raised)]
  {
    hide After, OwnCalls, BeatsAfterStop, EndsTheCalls;
    RunsKeepInv(steps);
    OwnCallsAreCalls(After(steps).calls);
  }

  lemma {:induction false} NoneCounted(calls: seq<Call>, picks: Call -> bool)
    requires forall c :: c in calls ==> !picks(c)
    ensures Count(calls, picks) == 0
  {
    if calls != [] {
      NoneCounted(calls[..|calls| - 1], picks);
    }
  }

  /** However the two processes interleave, at most one completion or
      rejection is sent, and nothing is sent after it: no heartbeat either. */
  lemma CompletionIsSentOnceAndLast(steps: seq<Step>, more: seq<Step>)
    ensures Count(After(steps).calls, Completions()) <= 1
    ensures (exists c :: c in After(steps).calls && Completions()(c)) ==> After(steps + more).calls == After(steps).calls
    decreases |more|
  {
    hide After, Inv, Completions;
    RunsKeepInv(steps);
    AtMostOneFinal(After(steps).calls) by {
      InvEndsTheCalls(After(steps));
    }
    if more == [] {
      assert steps + more == steps;
    } else {
      CompletionIsSentOnceAndLast(steps, more[..|more| - 1]);
      RunsKeepInv(steps + more[..|more| - 1]);
      LastStep(steps, more);
      FinishedCallsStay(After(steps + more[..|more| - 1]), more[|more| - 1]);
    }
  }

  lemma InvEndsTheCalls(s: State)
    requires Inv(s)
    ensures EndsTheCalls(s.calls)
  {
  }

  lemma LastStep(steps: seq<Step>, more: seq<Step>)
    requires more != []
    ensures var before, step := After(steps + more[..|more| - 1]), more[|more| - 1];
      After(steps + more) == if Enabled(before, step) then Apply(before, step) else before
  {
    assert (steps + more)[..|steps + more| - 1] == steps + more[..|more| - 1];
  }

  lemma AtMostOneFinal(calls: seq<Call>)
    requires EndsTheCalls(calls)
    ensures Count(calls, Completions()) <= 1
  {
    if calls != [] {
      NoneCounted(calls[..|calls| - 1], Completions());
    }
  }

  /** Once something final is sent, no step makes a call. */
  lemma FinishedCallsStay(s: State, step: Step)
    requires Inv(s)
    ensures (exists c :: c in s.calls && Completions()(c)) && Enabled(s, step) ==> Apply(s, step).calls == s.calls
  {
    hide OwnCalls, BeatsAfterStop, EndsTheCalls;
    OwnCallsAreCalls(s.calls);
    assert s.runner.Completing? ==> Stop in OwnCalls(s.calls);
  }

  lemma {:induction false} AnEndIsFinal(steps: seq<Step>, more: seq<Step>)
    requires After(steps).heartbeat.Ended?
    ensures After(steps + more).heartbeat == After(steps).heartbeat
    decreases |more|
  {
    hide After, Inv, Unwind, Join;
    if more == [] {
      assert steps + more == steps;
    } else {
      AnEndIsFinal(steps, more[..|more| - 1]);
      LastStep(steps, more);
      EndStays(After(steps + more[..|more| - 1]), more[|more| - 1]);
      RunsKeepInv(steps + more[..|more| - 1]);
      AfterGrantNoneStarts(After(steps + more[..|more| - 1]));
    }
  }

  lemma AfterGrantNoneStarts(s: State)
    requires Inv(s) && s.heartbeat.Ended?
    ensures !s.runner.Requesting?
  {
  }

  lemma EndStays(s: State, step: Step)
    requires s.heartbeat.Ended?
    ensures Enabled(s, step) && !s.runner.Requesting? ==> Apply(s, step).heartbeat == s.heartbeat
  {
  }

  /** A lease whose heartbeat was refused is not completed, then or later. */
  lemma LostLeaseIsNeverCompleted(steps: seq<Step>, more: seq<Step>, status: Status)
    requires After(steps).heartbeat == Ended(Lost)
    ensures Complete(status) !in After(steps + more).calls
  {
    hide After;
    AnEndIsFinal(steps, more);
    if Complete(status) in After(steps + more).calls {
      CompletionFollowsAStoppedHeartbeat(steps + more, status);
    }
  }

  /** The stop event is heeded: at most the one heartbeat already due is still sent. */
  lemma AtMostOneBeatAfterStop(steps: seq<Step>)
    ensures BeatsAfterStop(After(steps).calls) <= 1
  {
    hide After, OwnCalls, BeatsAfterStop, EndsTheCalls;
    RunsKeepInv(steps);
  }

  /** What `run_once` returns is what happened; and it never returns while its heartbeat runs. */
  lemma OutcomesAreTrue(steps: seq<Step>, outcome: Outcome)
    requires After(steps).runner == Done(outcome)
    ensures !Live(After(steps).heartbeat)
    ensures outcome.Finished? ==> OwnCalls(After(steps).calls) == [Progress, Execute, Stop, Complete(outcome.status)]
    ensures outcome == LeaseLost <==> After(steps).heartbeat == Ended(Lost) && outcome != Raised
    ensures outcome == NotGranted ==> After(steps).calls == []
    ensures outcome == InvalidJob ==> After(steps).calls == [RejectJob]
  {
    hide After, BeatsAfterStop, EndsTheCalls;
    RunsKeepInv(steps);
    var calls := After(steps).calls;
    OwnCallsAreCalls(calls);
    if outcome == NotGranted || outcome == InvalidJob {
      OnlyOwn(calls);
    }
  }

  lemma {:induction false} OnlyOwn(calls: seq<Call>)
    requires Beat !in calls
    ensures OwnCalls(calls) == calls
  {
    if calls != [] {
      OnlyOwn(calls[..|calls| - 1]);
    }
  }
}
