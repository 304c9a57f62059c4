/**
 * The dispatcher's job accounting (`Dispatcher.Start`, `DispatchHook`,
 * `startJob`, `finishJob`, `Wait`; `Worker.Start`, `handleJob`) as a
 * transition system.
 *
 * Every goroutine step is one atomic transition. The job queue is the
 * buffered `workQueue` channel; `handoffs` holds the jobs the assignment loop
 * has received, each waiting in its own goroutine for an idle worker; a
 * worker is idle while its channel sits in `workerQueue`.
 */
module Pool {
  import opened Common
  import Delivery

  type Dispatch = Delivery.Dispatch

  /** Where a worker's loop is: about to register, registered and waiting, or handling a job. */
  datatype Phase = Unregistered | Idle | Busy(job: Dispatch)

  datatype Worker = Worker(id: int, phase: Phase)

  /**
   * `pendingStarts` counts `DispatchHook` calls that have completed their
   * send but not yet run the deferred `startJob`. `submitted`, `handled` and
   * `errors` record history: every job sent, every job whose `handleJob`
   * finished, and the application's error counter.
   */
  datatype State = State(
    bufferSize: nat,
    workerCount: nat,
    workQueue: seq<Dispatch>,
    handoffs: seq<Dispatch>,
    workers: seq<Worker>,
    pendingStarts: nat,
    jobs: int,
    submitted: seq<Dispatch>,
    handled: seq<Dispatch>,
    errors: nat)

  /** Go's panic text for a channel made with a negative capacity. */
  const MakeChanError := "makechan: size out of range"

  /**
   * `Start`: an idle-worker queue of capacity `workerCount`, a job queue of
   * capacity `bufferSize`, and workers numbered 1..workerCount whose loops
   * are about to register as idle.
   */
  function Start(workerCount: int, bufferSize: int): (r: Result<State, string>)
    ensures r.Failure? <==> workerCount < 0 || bufferSize < 0
    ensures r.Failure? ==> r.error == MakeChanError
    ensures r.Success? ==>
              && r.value.workerCount == workerCount
              && r.value.bufferSize == bufferSize
              && |r.value.workers| == workerCount
              && (forall i :: 0 <= i < workerCount ==> r.value.workers[i] == Worker(i + 1, Unregistered))
              && r.value.workQueue == [] && r.value.handoffs == []
              && r.value.jobs == 0 && r.value.pendingStarts == 0
              && r.value.submitted == [] && r.value.handled == []
  {
    if workerCount < 0 || bufferSize < 0 then Failure(MakeChanError)
    else
      var workers := seq(workerCount, i requires 0 <= i < workerCount => Worker(i + 1, Unregistered));
      Success(State(bufferSize, workerCount, [], [], workers, 0, 0, [], [], 0))
  }

  /** The marshalled payload; a marshalling failure leaves Go's nil slice, i.e. an empty body. */
  function Payload(marshalled: Option<seq<byte>>): seq<byte> {
    marshalled.GetOr([])
  }

  /** The job `DispatchHook` builds. */
  function JobOf(gameID: string, eventType: int, marshalled: Option<seq<byte>>): Dispatch {
    Delivery.Dispatch(gameID, eventType, Payload(marshalled))
  }

  /** The channel send accepts a job now: room in the buffer, or an unbuffered rendezvous. */
  predicate CanSend(s: State) {
    s.bufferSize == 0 || |s.workQueue| < s.bufferSize
  }

  /** The job goes onto the channel; an unbuffered send hands it straight to the assignment loop. */
  function Push(s: State, job: Dispatch): State {
    if s.bufferSize == 0 then s.(handoffs := s.handoffs + [job], submitted := s.submitted + [job])
    else s.(workQueue := s.workQueue + [job], submitted := s.submitted + [job])
  }

  /**
   * Where a sent job lands: at the back of the buffered queue, or, on an
   * unbuffered channel, straight in a new hand-off goroutine; the other
   * of the two is untouched.
   */
  ghost predicate Lands(s: State, t: State, job: Dispatch) {
    if s.bufferSize == 0 then t.handoffs == s.handoffs + [job] && t.workQueue == s.workQueue
    else t.workQueue == s.workQueue + [job] && t.handoffs == s.handoffs
  }

  /**
   * `DispatchHook` up to and including the channel send. The increment of
   * `Jobs` is deferred, so after this step the count is unchanged and one
   * `startJob` is owed. None: the send blocks (backpressure, never a drop).
   */
  function NextEnqueue(s: State, gameID: string, eventType: int, marshalled: Option<seq<byte>>): (r: Option<State>)
    ensures r.Some? <==> s.bufferSize == 0 || |s.workQueue| < s.bufferSize
    ensures r.Some? ==>
              && r.value.submitted == s.submitted + [Delivery.Dispatch(gameID, eventType, Payload(marshalled))]
              && r.value.jobs == s.jobs
              && r.value.pendingStarts == s.pendingStarts + 1
    ensures r.Some? ==> Lands(s, r.value, Delivery.Dispatch(gameID, eventType, Payload(marshalled)))
    ensures r.Some? ==>
              r.value == s.(workQueue := r.value.workQueue, handoffs := r.value.handoffs,
                            submitted := r.value.submitted, pendingStarts := r.value.pendingStarts)
  {
    if CanSend(s) then
      Some(Push(s, JobOf(gameID, eventType, marshalled)).(pendingStarts := s.pendingStarts + 1))
    else None
  }

  /** The deferred `startJob`: `Jobs++` by a producer whose send has completed. */
  function NextStartJob(s: State): (r: Option<State>)
    ensures r.Some? <==> s.pendingStarts > 0
    ensures r.Some? ==> r.value.jobs == s.jobs + 1 && r.value.pendingStarts + 1 == s.pendingStarts
    ensures r.Some? ==> r.value == s.(jobs := r.value.jobs, pendingStarts := r.value.pendingStarts)
  {
    if s.pendingStarts > 0 then Some(s.(jobs := s.jobs + 1, pendingStarts := s.pendingStarts - 1))
    else None
  }

  /** The assignment loop receives the oldest queued job and spawns a hand-off goroutine for it. */
  function NextReceive(s: State): (r: Option<State>)
    ensures r.Some? <==> s.workQueue != []
    ensures r.Some? ==> r.value.workQueue == s.workQueue[1..] && r.value.handoffs == s.handoffs + [s.workQueue[0]]
    ensures r.Some? ==> r.value == s.(workQueue := r.value.workQueue, handoffs := r.value.handoffs)
  {
    if s.workQueue == [] then None
    else Some(s.(workQueue := s.workQueue[1..], handoffs := s.handoffs + [s.workQueue[0]]))
  }

  /** Removes position k of a sequence. */
  function RemoveAt<T>(xs: seq<T>, k: nat): (r: seq<T>)
    requires k < |xs|
    ensures |r| == |xs| - 1
    ensures multiset(r) + multiset{xs[k]} == multiset(xs)
  {
    assert xs == xs[..k] + [xs[k]] + xs[k + 1..];
    xs[..k] + xs[k + 1..]
  }

  /** The worker with this ID exists. */
  predicate HasWorker(s: State, id: int) {
    1 <= id <= |s.workers|
  }

  /**
   * Hand-off goroutine k takes idle worker `id` from the idle-worker queue and
   * sends it its job. Any waiting hand-off may win and any idle worker may be
   * taken: hand-off order is not FIFO. Only an idle worker gets a job.
   */
  function NextHandOff(s: State, k: nat, id: int): (r: Option<State>)
    ensures r.Some? <==> k < |s.handoffs| && HasWorker(s, id) && s.workers[id - 1].phase.Idle?
    ensures r.Some? ==>
              && r.value.workers == s.workers[id - 1 := Worker(s.workers[id - 1].id, Busy(s.handoffs[k]))]
              && multiset(r.value.handoffs) + multiset{s.handoffs[k]} == multiset(s.handoffs)
    ensures r.Some? ==> r.value == s.(handoffs := r.value.handoffs, workers := r.value.workers)
  {
    if k < |s.handoffs| && HasWorker(s, id) && s.workers[id - 1].phase.Idle? then
      var w := s.workers[id - 1];
      Some(s.(handoffs := RemoveAt(s.handoffs, k), workers := s.workers[id - 1 := w.(phase := Busy(s.handoffs[k]))]))
    else None
  }

  /** A worker's loop puts its channel on the idle-worker queue. */
  function NextRegister(s: State, id: int): (r: Option<State>)
    ensures r.Some? <==> HasWorker(s, id) && s.workers[id - 1].phase.Unregistered?
    ensures r.Some? ==> r.value.workers == s.workers[id - 1 := Worker(s.workers[id - 1].id, Idle)]
    ensures r.Some? ==> r.value == s.(workers := r.value.workers)
  {
    if HasWorker(s, id) && s.workers[id - 1].phase.Unregistered? then
      Some(s.(workers := s.workers[id - 1 := s.workers[id - 1].(phase := Idle)]))
    else None
  }

  /**
   * `handleJob`: the worker delivers its job (`Worker.DispatchHook`, whose
   * nil result is ignored), then the deferred `finishJob` runs. `Jobs` drops by
   * exactly one whatever the hooks did, including when there were none, and
   * the worker must register again before it can take another job.
   */
  function NextHandleJob(s: State, id: int, reg: Delivery.Registry, cfg: Delivery.Config, oracle: Delivery.Oracle): (r: Option<State>)
    ensures r.Some? <==> HasWorker(s, id) && s.workers[id - 1].phase.Busy?
    ensures r.Some? ==>
              var job := s.workers[id - 1].phase.job;
              && r.value.jobs == s.jobs - 1
              && r.value.handled == s.handled + [job]
              && r.value.errors == s.errors + |Delivery.FailedIndices(Delivery.DispatchHook(reg, job, cfg, oracle).attempts)|
              && r.value.workers == s.workers[id - 1 := Worker(s.workers[id - 1].id, Unregistered)]
    ensures r.Some? ==>
              r.value == s.(workers := r.value.workers, jobs := r.value.jobs,
                            handled := r.value.handled, errors := r.value.errors)
  {
    if HasWorker(s, id) && s.workers[id - 1].phase.Busy? then
      var w := s.workers[id - 1];
      var report := Delivery.DispatchHook(reg, w.phase.job, cfg, oracle);
      Some(s.(workers := s.workers[id - 1 := w.(phase := Unregistered)],
              jobs := s.jobs - 1,
              handled := s.handled + [w.phase.job],
              errors := s.errors + report.errors))
    else None
  }

  /**
   * A `DispatchHook` whose increment comes before the send and happens in the
   * same atomic step. It is not what the source does (see `NextEnqueue` and
   * `NextStartJob`); it is the corrected accounting.
   */
  function NextSubmit(s: State, gameID: string, eventType: int, marshalled: Option<seq<byte>>): (r: Option<State>)
    ensures r.Some? <==> s.bufferSize == 0 || |s.workQueue| < s.bufferSize
    ensures r.Some? ==>
              && r.value.submitted == s.submitted + [Delivery.Dispatch(gameID, eventType, Payload(marshalled))]
              && r.value.jobs == s.jobs + 1
    ensures r.Some? ==> Lands(s, r.value, Delivery.Dispatch(gameID, eventType, Payload(marshalled)))
    ensures r.Some? ==>
              r.value == s.(workQueue := r.value.workQueue, handoffs := r.value.handoffs,
                            submitted := r.value.submitted, jobs := r.value.jobs)
  {
    if CanSend(s) then Some(Push(s, JobOf(gameID, eventType, marshalled)).(jobs := s.jobs + 1))
    else None
  }

  /** `Wait`'s loop test: it stops polling once it reads a count of at most 0. */
  predicate WaitStops(jobs: int) {
    jobs <= 0
  }

  /** `Wait` returns in this state: a poll here reads `s.jobs`. */
  predicate WaitReturns(s: State) {
    WaitStops(s.jobs)
  }

  /**
   * `Wait`'s polling loop, given the values of `Jobs` its successive polls
   * read: it returns after the first poll that reads at most 0, and never
   * returns while every poll reads a positive count. Its loop test is
   * `WaitStops`, so a poll that reads `s.jobs` stops exactly when
   * `WaitReturns(s)`.
   */
  method Wait(polls: seq<int>) returns (returnedAfter: Option<nat>)
    ensures returnedAfter.Some? ==>
              returnedAfter.value < |polls| && polls[returnedAfter.value] <= 0
              && forall k :: 0 <= k < returnedAfter.value ==> polls[k] > 0
    ensures returnedAfter.None? <==> forall k :: 0 <= k < |polls| ==> polls[k] > 0
  {
    var i := 0;
    while i < |polls| && !WaitStops(polls[i])
      invariant 0 <= i <= |polls|
      invariant forall k :: 0 <= k < i ==> polls[k] > 0
    {
      i := i + 1;
    }
    if i < |polls| {
      returnedAfter := Some(i);
    } else {
      returnedAfter := None;
    }
  }
}
