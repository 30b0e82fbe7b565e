/**
 Dispatched jobs end to end: origin entities, the outbox commit that ties a
 `Dispatched` event to its enqueue, native workers routing executions to submit or
 reconcile, and verdicts delivered to the origin before the job acknowledges.

 The job protocol is the transition system of `JobQueue`, used unchanged: every
 step of the world either leaves the queue alone or is one of its actions.
 */
module Delivery {
  import opened Prelude
  import opened Outbox
  import opened EventTable
  import opened Lifecycles
  import opened Jobs
  import opened JobQueue
  import opened JobWorker
  import opened Dispatches
  import opened Origins

  type OriginId = nat

  datatype Config = Config(maxAttempts: nat, retryDelayMs: nat, refusedBackoffMs: nat)

  datatype SubmitAnswer = SubmitDone(output: string) | SubmitDefer(delayMs: nat) | SubmitTransient(error: string) | SubmitTerminal(error: string)

  datatype ReconcileAnswer =
    | AlreadySettled(output: string)
    | NotSubmitted
    | Indeterminate(delayMs: nat)
    | ReconcileTransient(error: string)
    | ReconcileTerminal(error: string)

  /** What an execution did at the external boundary, in order. */
  datatype Call = SubmitCalled | SubmitAnswered(submitted: SubmitAnswer) | ReconcileCalled | ReconcileAnswered(reconciled: ReconcileAnswer)

  datatype Loaded = Loaded(base: nat, state: OriginLifecycle)

  /** `Delivering` remembers the result the job reports if its verdict is delivered. */
  datatype Phase =
    | Submitting
    | Reconciling
    | Delivering(verdict: Verdict, result: Execution, loaded: Option<Loaded>)
    | Ended(outcome: Execution)
    | Gone

  /** One execution of one won claim; `calls` and `verdict` are kept as history. */
  datatype Exec = Exec(handle: Handle, phase: Phase, calls: seq<Call>, verdict: Option<Verdict>)

  datatype Key = Key(job: JobId, claimSeq: nat)

  /** A placing or domain command that has loaded its origin and not yet committed. */
  datatype Send = Send(origin: OriginId, command: OriginCommand, base: nat, state: OriginLifecycle)

  datatype World = World(queue: System, origins: Streams,
                         home: map<JobId, OriginId>, execs: map<Key, Exec>, sends: set<Send>)

  datatype WorldAction =
    | QueueStep(step: JobQueue.Action)
    | LoadSend(origin: OriginId, command: OriginCommand)
    | CommitSend(send: Send, now: int)
    | Begin(jobId: JobId, handle: Handle)
    | SubmitReturned(key: Key, submitted: SubmitAnswer)
    | ReconcileReturned(key: Key, reconciled: ReconcileAnswer)
    | LoadForDelivery(key: Key)
    | CommitDelivery(key: Key)
    | DeliveryFails(key: Key)
    | TimeOut(key: Key)
    | Ack(key: Key, now: int, backoffMs: nat)

  const START := World(EMPTY, map[], map[], map[], {})

  type Streams = map<OriginId, seq<Stored<OriginEvent>>>

  function LogOf(origins: Streams, origin: OriginId): seq<Stored<OriginEvent>> {
    if origin in origins then origins[origin] else []
  }

  /** The dispatch events on a log. */
  function JobsOn(log: seq<Stored<OriginEvent>>): seq<DispatchEvent> {
    JobEvents(Events(log))
  }

  function EventsOf(origins: Streams, origin: OriginId): seq<DispatchEvent> {
    JobsOn(LogOf(origins, origin))
  }

  // ------------------------------------------------------------- the outbox

  /** The job enqueue a placing commit carries, when both halves of it can be written. */
  function PlaceRequest(w: World, push: PendingPush, now: int): Option<EnqueueRequest> {
    var request := Request(push, now);
    if request.Ok? && IsInstant(request.value.runAtMs) && push.jobId !in w.queue.jobs
    then Some(request.value) else None
  }

  /** One transaction: the origin's event at the loaded sequence plus one, and the job's enqueue. */
  function Placing(w: World, send: Send, now: int): World
    requires send.command.Place?
  {
    var done := w.(sends := w.sends - {send});
    var push := send.command.push;
    var handled := OriginDecision(send.state, send.command);
    if handled.Err? || |handled.value| != 1 then done
    else
      var appended := Insert(LogOf(w.origins, send.origin), Stored(send.base + 1, handled.value[0]));
      var request := PlaceRequest(w, push, now);
      if appended.None? || request.None? then done
      else
        done.(origins := w.origins[send.origin := appended.value],
              queue := JobQueue.Next(w.queue, Enqueue(request.value.jobId, request.value.kind, request.value.payload, request.value.runAtMs)),
              home := w.home[push.jobId := send.origin])
  }

  /** A domain command's events, all at the sequences after its load or none. */
  function Acting(w: World, send: Send): World
    requires send.command.Act?
  {
    var done := w.(sends := w.sends - {send});
    var handled := OriginDecision(send.state, send.command);
    if handled.Err? || handled.value == [] then done
    else
      var appended := InsertAll(LogOf(w.origins, send.origin), Wrapped(handled.value, send.base));
      if appended.None? then done else done.(origins := w.origins[send.origin := appended.value])
  }

  // ------------------------------------------------------------- executions

  function Routed(h: Handle): Exec {
    if IsFirstExecution(h) then Exec(h, Submitting, [SubmitCalled], None)
    else Exec(h, Reconciling, [ReconcileCalled], None)
  }

  /** What an execution does with the outcome of its external calls. */
  function Concluded(c: Config, job: JobId, x: Exec, outcome: SubmitAnswer): Exec {
    var attempts := x.handle.attempt + 1;
    match outcome
    case SubmitDone(output) => Delivers(x, Confirm(Success(job, output, attempts)), Finished)
    case SubmitDefer(delayMs) => x.(phase := Ended(Deferred(delayMs)))
    case SubmitTerminal(error) => Delivers(x, Fail(Defeat(job, DomainRejected(error), attempts)), Terminal(error))
    case SubmitTransient(error) =>
      if IsFinalAttempt(x.handle, c.maxAttempts) then
        Delivers(x, Fail(Defeat(job, DeadLettered(RetriesExhausted, error), attempts)), Transient(error))
      else x.(phase := Ended(Transient(error)))
  }

  function Delivers(x: Exec, verdict: Verdict, result: Execution): Exec {
    x.(phase := Delivering(verdict, result, None), verdict := Some(verdict))
  }

  function AfterSubmit(c: Config, job: JobId, x: Exec, answer: SubmitAnswer): Exec {
    Concluded(c, job, x.(calls := x.calls + [SubmitAnswered(answer)]), answer)
  }

  function AfterReconcile(c: Config, job: JobId, x: Exec, answer: ReconcileAnswer): Exec {
    var y := x.(calls := x.calls + [ReconcileAnswered(answer)]);
    match answer
    case NotSubmitted => y.(phase := Submitting, calls := y.calls + [SubmitCalled])
    case Indeterminate(delayMs) => y.(phase := Ended(Deferred(delayMs)))
    case AlreadySettled(output) => Concluded(c, job, y, SubmitDone(output))
    case ReconcileTransient(error) => Concluded(c, job, y, SubmitTransient(error))
    case ReconcileTerminal(error) => Concluded(c, job, y, SubmitTerminal(error))
  }

  /** A failed delivery defers a settled job; an exhausted one dead-letters anyway. */
  function Undelivered(x: Exec, delayMs: nat): Exec
    requires x.phase.Delivering?
  {
    x.(phase := Ended(if x.phase.result.Transient? then x.phase.result else Deferred(delayMs)))
  }

  /** Sends the verdict against the stream as it was loaded; a lost race is a failed delivery. */
  function Delivered(c: Config, log: seq<Stored<OriginEvent>>, x: Exec): (Exec, Option<seq<Stored<OriginEvent>>>)
    requires x.phase.Delivering? && x.phase.loaded.Some?
  {
    var loaded := x.phase.loaded.value;
    match OriginDecision(loaded.state, Settle(x.phase.verdict))
    case Err(_) => (Undelivered(x, c.refusedBackoffMs), None)
    case Ok(events) =>
      if events == [] then (x.(phase := Ended(x.phase.result)), None)
      else
        var appended := Insert(log, Stored(loaded.base + 1, events[0]));
        if appended.None? then (Undelivered(x, c.retryDelayMs), None)
        else (x.(phase := Ended(x.phase.result)), appended)
  }

  function Committed(w: World, key: Key, origin: OriginId, x: Exec, appended: Option<seq<Stored<OriginEvent>>>): World {
    w.(execs := w.execs[key := x], origins := if appended.Some? then w.origins[origin := appended.value] else w.origins)
  }

  /** The steps of an execution that write nothing durable. */
  function ExecNext(c: Config, log: seq<Stored<OriginEvent>>, job: JobId, x: Exec, a: WorldAction): Exec {
    match a
    case SubmitReturned(_, answer) => if x.phase.Submitting? then AfterSubmit(c, job, x, answer) else x
    case ReconcileReturned(_, answer) => if x.phase.Reconciling? then AfterReconcile(c, job, x, answer) else x
    case LoadForDelivery(_) =>
      if x.phase.Delivering?
      then x.(phase := x.phase.(loaded := Some(Loaded(LastSequence(log), OriginFold(Events(log))))))
      else x
    // An error may be reported although the commit landed.
    case DeliveryFails(_) =>
      if x.phase.Delivering? then Undelivered(x, c.retryDelayMs)
      else if x.phase.Ended? && x.verdict.Some? && !x.phase.outcome.Transient? then x.(phase := Ended(Deferred(c.retryDelayMs)))
      else x
    case TimeOut(_) => if x.phase.Gone? then x else x.(phase := Ended(TimedOut))
    case _ => x
  }

  function WorldNext(c: Config, w: World, a: WorldAction): World {
    match a
    case QueueStep(step) =>
      if step.Crash? then
        w.(queue := JobQueue.Next(w.queue, step), sends := {},
           execs := map key | key in w.execs :: w.execs[key].(phase := Gone))
      // Dispatched jobs are settled only by the workers executing them.
      else if step.LoadJob? && step.job in w.home then w
      else w.(queue := JobQueue.Next(w.queue, step))
    case LoadSend(origin, command) =>
      // Verdicts reach an origin only through deliveries.
      if command.Settle? then w
      else
        var log := LogOf(w.origins, origin);
        w.(sends := w.sends + {Send(origin, command, LastSequence(log), OriginFold(Events(log)))})
    case CommitSend(send, now) =>
      if send !in w.sends then w
      else if send.command.Place? then Placing(w, send, now)
      else if send.command.Act? then Acting(w, send)
      else w
    case Begin(j, handle) =>
      var key := Key(j, handle.claimSeq);
      if j in w.home && j in w.queue.jobs && handle in w.queue.jobs[j].won && key !in w.execs
      then w.(execs := w.execs[key := Routed(handle)]) else w
    case CommitDelivery(key) =>
      if key in w.execs && key.job in w.home && w.execs[key].phase.Delivering? && w.execs[key].phase.loaded.Some? then
        var origin := w.home[key.job];
        var delivered := Delivered(c, LogOf(w.origins, origin), w.execs[key]);
        Committed(w, key, origin, delivered.0, delivered.1)
      else w
    case Ack(key, now, backoffMs) =>
      // May repeat: the ack loop resends until it is recorded or fenced.
      if key in w.execs && w.execs[key].phase.Ended? then
        var x := w.execs[key];
        var command := AckCommand(x.handle, c.maxAttempts, now, backoffMs, AckPlanOf(x.phase.outcome));
        w.(queue := JobQueue.Next(w.queue, LoadJob(key.job, x.handle, command)))
      else w
    case _ =>
      if a.key in w.execs && a.key.job in w.home then
        w.(execs := w.execs[a.key := ExecNext(c, LogOf(w.origins, w.home[a.key.job]), a.key.job, w.execs[a.key], a)])
      else w
  }

  function WorldRun(c: Config, actions: seq<WorldAction>): World {
    if actions == [] then START else WorldNext(c, WorldRun(c, actions[..|actions| - 1]), actions[|actions| - 1])
  }
}
