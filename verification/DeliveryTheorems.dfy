/** What the dispatch protocol guarantees over every run. */
module DeliveryTheorems {
  import opened Prelude
  import opened Outbox
  import opened EventTable
  import opened Lifecycles
  import opened Jobs
  import opened JobQueue
  import opened JobInvariants
  import opened JobTheorems
  import opened JobWorker
  import opened Dispatches
  import opened Origins
  import opened Delivery
  import opened DeliveryInvariants

  /** Every step of the world is a step of the job queue, or none: the job protocol's theorems carry over. */
  lemma {:induction false} QueueFollowsItsProtocol(c: Config, actions: seq<WorldAction>) returns (steps: seq<JobQueue.Action>)
    ensures WorldRun(c, actions).queue == JobQueue.Run(steps)
  {
    if actions == [] {
      steps := [];
    } else {
      var w := WorldRun(c, actions[..|actions| - 1]);
      var before := QueueFollowsItsProtocol(c, actions[..|actions| - 1]);
      var step := QueueStepOf(c, w, actions[|actions| - 1]);
      if step.None? {
        steps := before;
      } else {
        steps := before + [step.value];
        assert steps[..|steps| - 1] == before;
      }
    }
  }

  lemma QueueStepOf(c: Config, w: World, a: WorldAction) returns (step: Option<JobQueue.Action>)
    ensures WorldNext(c, w, a).queue == if step.None? then w.queue else JobQueue.Next(w.queue, step.value)
  {
    step := None;
    if WorldNext(c, w, a).queue != w.queue {
      match a {
        case QueueStep(s) => step := Some(s);
        case Ack(key, now, backoffMs) =>
          var x := w.execs[key];
          step := Some(LoadJob(key.job, x.handle, AckCommand(x.handle, c.maxAttempts, now, backoffMs, AckPlanOf(x.phase.outcome))));
        case CommitSend(send, now) =>
          var request := PlaceRequest(w, send.command.push, now).value;
          step := Some(Enqueue(request.jobId, request.kind, request.payload, request.runAtMs));
        case _ =>
      }
    }
  }

  lemma {:induction false} RunKeepsWorld(c: Config, actions: seq<WorldAction>)
    ensures Inv(WorldRun(c, actions).queue) && WorldInv(WorldRun(c, actions))
  {
    var steps := QueueFollowsItsProtocol(c, actions);
    RunKeepsInv(steps);
    if actions != [] {
      RunKeepsWorld(c, actions[..|actions| - 1]);
      StepKeepsWorld(c, WorldRun(c, actions[..|actions| - 1]), actions[|actions| - 1]);
    }
  }

  ghost predicate DistinctDispatches(events: seq<DispatchEvent>) {
    forall i, k :: 0 <= i < k < |events| && events[i].JobDispatched? && events[k].JobDispatched? ==> events[i].jobId != events[k].jobId
  }

  /** A step appends at most one event to an origin's stream, and dispatches only a job id never dispatched. */
  ghost predicate GrowsByOne(events: seq<DispatchEvent>, later: seq<DispatchEvent>) {
    || later == events
    || exists event :: later == events + [event] && (event.JobDispatched? ==> !DispatchedOn(events, event.jobId))
  }

  lemma GrowsBy(events: seq<DispatchEvent>, event: DispatchEvent)
    requires event.JobDispatched? ==> !DispatchedOn(events, event.jobId)
    ensures GrowsByOne(events, events + [event])
  {
  }

  lemma {:induction false} StepGrowsStreams(c: Config, w: World, a: WorldAction, o: OriginId)
    requires WorldInv(w)
    ensures GrowsByOne(EventsOf(w.origins, o), EventsOf(WorldNext(c, w, a).origins, o))
  {
    if a.CommitDelivery? {
      if a.key in w.execs && a.key.job in w.home && w.execs[a.key].phase.Delivering? && w.execs[a.key].phase.loaded.Some? {
        CommitDeliveryGrowsStreams(c, w, a.key, o);
      }
    } else if a.CommitSend? {
      CommitSendIs(c, w, a.send, a.now);
      if a.send in w.sends && a.send.command.Place? {
        CommitPlaceGrowsStreams(w, a.send, a.now, o);
      } else if a.send in w.sends && a.send.command.Act? {
        CommitActLeavesJobs(w, a.send, o);
      }
    } else {
      OtherStepsLeaveStreams(c, w, a);
    }
  }

  lemma OtherStepsLeaveStreams(c: Config, w: World, a: WorldAction)
    requires !a.CommitDelivery? && !a.CommitSend?
    ensures WorldNext(c, w, a).origins == w.origins
  {
  }

  lemma {:induction false} CommitDeliveryGrowsStreams(c: Config, w: World, key: Key, o: OriginId)
    requires WorldInv(w) && key in w.execs && key.job in w.home
    requires w.execs[key].phase.Delivering? && w.execs[key].phase.loaded.Some?
    ensures GrowsByOne(EventsOf(w.origins, o), EventsOf(WorldNext(c, w, CommitDelivery(key)).origins, o))
  {
    CommitDeliveryIs(c, w, key);
    DeliveryFitsWorld(c, w, key);
    var event := VerdictEvent(w.execs[key].phase.verdict);
    AppendSeenFrom(w.origins, w.home[key.job], OfJob(event), o);
    GrowsBy(EventsOf(w.origins, o), event);
  }

  lemma {:induction false} CommitPlaceGrowsStreams(w: World, send: Send, now: int, o: OriginId)
    requires WorldInv(w) && send in w.sends && send.command.Place?
    ensures GrowsByOne(EventsOf(w.origins, o), EventsOf(Placing(w, send, now).origins, o))
  {
    SendLeaves(w, send);
    var request := PlacingAsAppend(w, send, now);
    if request.Some? {
      var event := JobDispatched(request.value.jobId, send.command.job);
      AppendSeenFrom(w.origins, send.origin, OfJob(event), o);
      NeverDispatched(w, request.value.jobId, o);
      GrowsBy(EventsOf(w.origins, o), event);
    }
  }

  lemma {:induction false} CommitActLeavesJobs(w: World, send: Send, o: OriginId)
    requires WorldInv(w) && send in w.sends && send.command.Act?
    ensures EventsOf(Acting(w, send).origins, o) == EventsOf(w.origins, o)
  {
    SendLeaves(w, send);
    ActingIs(w, send);
    DomainsAddNoJobs(w.origins, send.origin, send.command.data, o);
  }

  lemma {:induction false} DomainsAddNoJobs(origins: Streams, origin: OriginId, data: seq<string>, o: OriginId)
    ensures EventsOf(ActedOn(origins, origin, data), o) == EventsOf(origins, o)
  {
    if data != [] {
      var last := |data| - 1;
      DomainsAddNoJobs(origins, origin, data[..last], o);
      AppendSeenFrom(ActedOn(origins, origin, data[..last]), origin, Domain(data[last]), o);
    }
  }

  /** A dispatch event of a stream stands somewhere on its log. */
  lemma {:induction false} JobEventOnStream(events: seq<OriginEvent>, k: nat) returns (i: nat)
    requires k < |JobEvents(events)|
    ensures i < |events| && events[i] == OfJob(JobEvents(events)[k])
  {
    var last := |events| - 1;
    if k < |JobEvents(events[..last])| {
      i := JobEventOnStream(events[..last], k);
    } else {
      i := last;
    }
  }

  /** A dispatch on a stream names its origin's own job. */
  lemma {:induction false} DispatchIsHome(w: World, job: JobId, o: OriginId)
    requires WorldInv(w) && DispatchedOn(EventsOf(w.origins, o), job)
    ensures job in w.home && w.home[job] == o
  {
    var events := Events(LogOf(w.origins, o));
    var k :| 0 <= k < |JobEvents(events)| && JobEvents(events)[k].JobDispatched? && JobEvents(events)[k].jobId == job;
    var i := JobEventOnStream(events, k);
    assert Explained(w.execs, w.home, o, w.origins[o][i].event);
  }

  lemma NeverDispatched(w: World, job: JobId, o: OriginId)
    requires WorldInv(w) && job !in w.queue.jobs
    ensures !DispatchedOn(EventsOf(w.origins, o), job)
  {
    if DispatchedOn(EventsOf(w.origins, o), job) {
      DispatchIsHome(w, job, o);
      assert false;
    }
  }

  lemma {:induction false} DispatchesStayDistinct(c: Config, actions: seq<WorldAction>, o: OriginId)
    ensures DistinctDispatches(EventsOf(WorldRun(c, actions).origins, o))
  {
    if actions != [] {
      var before := actions[..|actions| - 1];
      DispatchesStayDistinct(c, before, o);
      RunKeepsWorld(c, before);
      StepGrowsStreams(c, WorldRun(c, before), actions[|actions| - 1], o);
      GrowthKeepsDistinct(EventsOf(WorldRun(c, before).origins, o), EventsOf(WorldRun(c, actions).origins, o));
    }
  }

  lemma GrowthKeepsDistinct(events: seq<DispatchEvent>, later: seq<DispatchEvent>)
    requires DistinctDispatches(events) && GrowsByOne(events, later)
    ensures DistinctDispatches(later)
  {
    forall i, k | 0 <= i < k < |later| && later[i].JobDispatched? && later[k].JobDispatched? ensures later[i].jobId != later[k].jobId {
      assert later[i] == events[i];
    }
  }

  /** On an alternating stream that never repeats a job id, a job gets one verdict, and a confirmation is final. */
  lemma {:induction false} OneVerdictPerJob(events: seq<DispatchEvent>, jobId: JobId)
    requires Alternates(events) && DistinctDispatches(events)
    ensures !(ConfirmedOn(events, jobId) && FailedOn(events, jobId))
    ensures ConfirmedOn(events, jobId) ==> StateOf(events).SettledOk? && StateOf(events).success.jobId == jobId
  {
    assert forall i :: 0 <= i < |events| ==> Fits(events, i);
    if ConfirmedOn(events, jobId) {
      var i :| 0 <= i < |events| && events[i].JobConfirmed? && events[i].success.jobId == jobId;
      assert Fits(events, i);
      forall k | 0 <= k < |events| && events[k].JobFailed? ensures events[k].defeat.jobId != jobId {
        assert Fits(events, k);
        assert k - 1 != i - 1;
      }
    }
  }

  /**
   Every origin stream of every run replays, whatever domain events race with its dispatch
   events; the latter alternate, and give each job at most one verdict.
   */
  lemma {:induction false} OriginStreamsAreSound(c: Config, actions: seq<WorldAction>, o: OriginId, jobId: JobId)
    ensures var w := WorldRun(c, actions);
            var events := EventsOf(w.origins, o);
            && !OriginFold(Events(LogOf(w.origins, o))).Failed? && Machine(OriginFold(Events(LogOf(w.origins, o)))) == StateOf(events)
            && Alternates(events) && DistinctDispatches(events)
            && !(ConfirmedOn(events, jobId) && FailedOn(events, jobId))
  {
    RunKeepsWorld(c, actions);
    var w := WorldRun(c, actions);
    assert OriginInv(LogOf(w.origins, o));
    OriginReplaysIffAlternates(Events(LogOf(w.origins, o)));
    DispatchesStayDistinct(c, actions, o);
    OneVerdictPerJob(EventsOf(w.origins, o), jobId);
  }

  /**
   Verdict before ack, for origins that retain their events: when a dispatched job's stream
   says it succeeded, its origin has confirmed it, finally and without ever failing it; when
   it says the job was rejected, its origin has failed it and never confirmed it.
   */
  lemma {:induction false} VerdictBeforeAck(c: Config, actions: seq<WorldAction>, j: JobId, i: nat)
    requires var w := WorldRun(c, actions); j in w.home && j in w.queue.jobs && i < |w.queue.jobs[j].log|
    ensures var w := WorldRun(c, actions);
            var event := w.queue.jobs[j].log[i].event;
            var origin := EventsOf(w.origins, w.home[j]);
            var machine := Machine(OriginFold(Events(LogOf(w.origins, w.home[j]))));
            && (event.Succeeded? ==>
                  && ConfirmedOn(origin, j) && !FailedOn(origin, j)
                  && machine.SettledOk? && machine.success.jobId == j)
            && (event.Dead? && event.reason == Rejected ==> FailedOn(origin, j) && !ConfirmedOn(origin, j))
  {
    RunKeepsWorld(c, actions);
    var w := WorldRun(c, actions);
    OriginStreamsAreSound(c, actions, w.home[j], j);
    OneVerdictPerJob(EventsOf(w.origins, w.home[j]), j);
    assert JobTold(w.queue.jobs[j], EventsOf(w.origins, w.home[j]), j);
  }

  /**
   No blind resubmission: an execution submits straight away exactly when its claim is the
   job's first, at most one execution of a job ever does, and every other submit directly
   follows a reconcile that answered `NotSubmitted`.
   */
  lemma {:induction false} NoBlindResubmission(c: Config, actions: seq<WorldAction>, key: Key, other: Key)
    requires key in WorldRun(c, actions).execs && other in WorldRun(c, actions).execs
    ensures var w := WorldRun(c, actions);
            var x := w.execs[key];
            && key.job in w.queue.jobs && x.handle in w.queue.jobs[key.job].won && x.handle.claimSeq == key.claimSeq
            && |x.calls| > 0
            && (x.calls[0].SubmitCalled? <==> !ClaimedBefore(Events(w.queue.jobs[key.job].log), key.claimSeq - 1))
            && (forall i :: 0 < i < |x.calls| && x.calls[i].SubmitCalled? ==> x.calls[i - 1] == ReconcileAnswered(NotSubmitted))
            && (key.job == other.job && x.calls[0].SubmitCalled? && |w.execs[other].calls| > 0 && w.execs[other].calls[0].SubmitCalled? ==> key == other)
  {
    RoutedByItsClaim(c, actions, key);
    RoutedByItsClaim(c, actions, other);
    var x := WorldRun(c, actions).execs[key];
    forall i | 0 < i < |x.calls| && x.calls[i].SubmitCalled? ensures x.calls[i - 1] == ReconcileAnswered(NotSubmitted) {
      assert SubmitAllowed(x.handle, x.calls, i);
    }
    var steps := QueueFollowsItsProtocol(c, actions);
    FirstClaimHasNoEarlier(steps, key.job, x.handle);
  }

  lemma {:induction false} RoutedByItsClaim(c: Config, actions: seq<WorldAction>, key: Key)
    requires key in WorldRun(c, actions).execs
    ensures var w := WorldRun(c, actions);
            var x := w.execs[key];
            && key.job in w.queue.jobs && x.handle in w.queue.jobs[key.job].won && x.handle.claimSeq == key.claimSeq
            && CallHistoryInv(key.job, x)
  {
    RunKeepsWorld(c, actions);
    StreamAndExec(WorldRun(c, actions), key);
  }

  lemma {:induction false} FirstClaimHasNoEarlier(steps: seq<JobQueue.Action>, j: JobId, h: Handle)
    requires j in JobQueue.Run(steps).jobs && h in JobQueue.Run(steps).jobs[j].won
    ensures IsFirstExecution(h) <==> !ClaimedBefore(Events(JobQueue.Run(steps).jobs[j].log), h.claimSeq - 1)
  {
    FirstExecutionIsExact(steps, j, h);
  }

  /**
   A verdict on an origin's stream is a proof: some execution of that very job, under a
   claim that was really won, heard the output or failure the verdict records.
   */
  lemma {:induction false} VerdictsAreProofs(c: Config, actions: seq<WorldAction>, o: OriginId, i: nat) returns (key: Key)
    requires var w := WorldRun(c, actions);
             o in w.origins && i < |w.origins[o]| && w.origins[o][i].event.OfJob? && !w.origins[o][i].event.dispatch.JobDispatched?
    ensures var w := WorldRun(c, actions);
            var event := w.origins[o][i].event.dispatch;
            && key in w.execs && w.execs[key].verdict.Some?
            && VerdictEvent(w.execs[key].verdict.value) == event
            && VerdictJob(w.execs[key].verdict.value) == key.job
            && VerdictAttempts(w.execs[key].verdict.value) == w.execs[key].handle.attempt + 1
            && Heard(w.execs[key].calls, w.execs[key].verdict.value)
            && key.job in w.queue.jobs && w.execs[key].handle in w.queue.jobs[key.job].won
  {
    RunKeepsWorld(c, actions);
    var w := WorldRun(c, actions);
    var event := w.origins[o][i].event.dispatch;
    assert Explained(w.execs, w.home, o, w.origins[o][i].event);
    var verdict := if event.JobConfirmed? then Confirm(event.success) else Fail(event.defeat);
    key :| key in w.execs && key.job == VerdictJob(verdict) && w.execs[key].verdict == Some(verdict);
    StreamAndExec(w, key);
  }

  /** A dispatched event and its job's enqueue exist together or not at all, and name one origin. */
  lemma {:induction false} DispatchedExactlyWhenEnqueued(c: Config, actions: seq<WorldAction>, o: OriginId, j: JobId)
    ensures var w := WorldRun(c, actions);
            && (DispatchedOn(EventsOf(w.origins, o), j) <==> j in w.home && w.home[j] == o)
            && (j in w.home ==> j in w.queue.jobs && |w.queue.jobs[j].log| > 0 && w.queue.jobs[j].log[0].event.Enqueued?)
  {
    RunKeepsWorld(c, actions);
    var w := WorldRun(c, actions);
    if j in w.home {
      assert j in w.queue.jobs;
      assert RecordInv(w.queue.jobs[j], w.queue.running, w.queue.minted);
      HeldIffLastClaimed(Events(w.queue.jobs[j].log));
      LiveStreamShape(Events(w.queue.jobs[j].log), 0);
    }
    if DispatchedOn(EventsOf(w.origins, o), j) {
      DispatchIsHome(w, j, o);
    }
  }
}
