/**
 * Runs of the dispatcher's transition system and what they preserve: no job
 * is lost or duplicated, and `Jobs` plus the increments still owed by
 * deferred `startJob` calls equals the number of jobs in flight.
 */
module Accounting {
  import opened Common
  import Delivery
  import opened Pool

  /**
   * One atomic step of some goroutine. The source's `DispatchHook` is an
   * `Enqueue` followed, later, by a `StartJob`; `Submit` is the corrected
   * form in which the increment and the send are one step.
   */
  datatype Event =
    | Enqueue(gameID: string, eventType: int, marshalled: Option<seq<byte>>)
    | StartJob
    | Receive
    | HandOff(k: nat, id: int)
    | Register(id: int)
    | HandleJob(id: int, reg: Delivery.Registry, cfg: Delivery.Config, oracle: Delivery.Oracle)
    | Submit(gameID: string, eventType: int, marshalled: Option<seq<byte>>)

  /** The corrected accounting: `DispatchHook` is `Submit`; no split send and increment. */
  predicate Corrected(e: Event) {
    !e.Enqueue? && !e.StartJob?
  }

  /** The state after one event; None when the event is not enabled. */
  function Next(s: State, e: Event): Option<State> {
    match e
    case Enqueue(g, t, m) => NextEnqueue(s, g, t, m)
    case StartJob => NextStartJob(s)
    case Receive => NextReceive(s)
    case HandOff(k, id) => NextHandOff(s, k, id)
    case Register(id) => NextRegister(s, id)
    case HandleJob(id, reg, cfg, oracle) => NextHandleJob(s, id, reg, cfg, oracle)
    case Submit(g, t, m) => NextSubmit(s, g, t, m)
  }

  /** The state after a sequence of events; None when one of them is not enabled. */
  function Run(s: State, events: seq<Event>): Option<State>
    decreases |events|
  {
    if events == [] then Some(s)
    else
      match Next(s, events[0])
      case None => None
      case Some(t) => Run(t, events[1..])
  }

  /** The job a worker holds, as a multiset of zero or one element. */
  function Held(w: Worker): multiset<Dispatch> {
    if w.phase.Busy? then multiset{w.phase.job} else multiset{}
  }

  /** The jobs held by all workers. */
  function HeldJobs(ws: seq<Worker>): multiset<Dispatch>
    decreases |ws|
  {
    if ws == [] then multiset{} else HeldJobs(ws[..|ws| - 1]) + Held(ws[|ws| - 1])
  }

  /** `HeldJobs` of a non-empty sequence, one step unfolded. */
  lemma HeldJobsLast(ws: seq<Worker>)
    requires ws != []
    ensures HeldJobs(ws) == HeldJobs(ws[..|ws| - 1]) + Held(ws[|ws| - 1])
  {
  }

  /** The jobs held by two groups of workers together. */
  lemma {:induction false} HeldJobsConcat(a: seq<Worker>, b: seq<Worker>)
    ensures HeldJobs(a + b) == HeldJobs(a) + HeldJobs(b)
    decreases |b|
  {
    if b == [] {
      assert a + b == a;
      assert HeldJobs(a) + multiset{} == HeldJobs(a);
    } else {
      var c := a + b;
      var b' := b[..|b| - 1];
      assert c[..|c| - 1] == a + b';
      assert c[|c| - 1] == b[|b| - 1];
      HeldJobsLast(c);
      HeldJobsLast(b);
      HeldJobsConcat(a, b');
      Regroup(HeldJobs(c), HeldJobs(b), HeldJobs(a), HeldJobs(b'), Held(b[|b| - 1]));
    }
  }

  lemma Regroup<T>(c: multiset<T>, b: multiset<T>, a: multiset<T>, b': multiset<T>, x: multiset<T>)
    requires c == a + b' + x && b == b' + x
    ensures c == a + b
  {
  }

  /** Replacing one worker changes the held jobs by exactly that worker's job. */
  lemma HeldJobsUpdate(ws: seq<Worker>, i: nat, w: Worker)
    requires i < |ws|
    ensures HeldJobs(ws[i := w]) + Held(ws[i]) == HeldJobs(ws) + Held(w)
  {
    var pre, post := ws[..i], ws[i + 1..];
    assert ws == pre + ([ws[i]] + post);
    assert ws[i := w] == pre + ([w] + post);
    HeldJobsConcat(pre, [ws[i]] + post);
    HeldJobsConcat(pre, [w] + post);
    HeldJobsConcat([ws[i]], post);
    HeldJobsConcat([w], post);
    assert HeldJobs([ws[i]]) == Held(ws[i]) by { HeldJobsLast([ws[i]]); }
    assert HeldJobs([w]) == Held(w) by { HeldJobsLast([w]); }
    Swap(HeldJobs(ws[i := w]), HeldJobs(ws), HeldJobs(pre), HeldJobs(post), Held(ws[i]), Held(w));
  }

  lemma Swap<T>(after: multiset<T>, before: multiset<T>, a: multiset<T>, b: multiset<T>, x: multiset<T>, y: multiset<T>)
    requires after == a + (y + b) && before == a + (x + b)
    ensures after + x == before + y
  {
  }

  /** `HeldJobsUpdate` when a worker that holds nothing takes a job. */
  lemma HeldJobsTake(ws: seq<Worker>, i: nat, w: Worker)
    requires i < |ws| && !ws[i].phase.Busy? && w.phase.Busy?
    ensures HeldJobs(ws[i := w]) == HeldJobs(ws) + multiset{w.phase.job}
  {
    HeldJobsUpdate(ws, i, w);
    assert HeldJobs(ws[i := w]) + multiset{} == HeldJobs(ws[i := w]);
  }

  /** `HeldJobsUpdate` when a worker that holds a job lets it go. */
  lemma HeldJobsDrop(ws: seq<Worker>, i: nat, w: Worker)
    requires i < |ws| && ws[i].phase.Busy? && !w.phase.Busy?
    ensures HeldJobs(ws[i := w]) + multiset{ws[i].phase.job} == HeldJobs(ws)
  {
    HeldJobsUpdate(ws, i, w);
    assert HeldJobs(ws) + multiset{} == HeldJobs(ws);
  }

  /** `HeldJobsUpdate` when a worker that holds nothing still holds nothing. */
  lemma HeldJobsKeep(ws: seq<Worker>, i: nat, w: Worker)
    requires i < |ws| && !ws[i].phase.Busy? && !w.phase.Busy?
    ensures HeldJobs(ws[i := w]) == HeldJobs(ws)
  {
    HeldJobsUpdate(ws, i, w);
    assert HeldJobs(ws[i := w]) + multiset{} == HeldJobs(ws[i := w]);
    assert HeldJobs(ws) + multiset{} == HeldJobs(ws);
  }

  /** Jobs in flight: queued, waiting for a worker, or being handled. */
  function InFlight(s: State): nat {
    |s.workQueue| + |s.handoffs| + |HeldJobs(s.workers)|
  }

  /** The invariant of every reachable state. */
  ghost predicate Inv(s: State) {
    && |s.workers| == s.workerCount
    && (forall i :: 0 <= i < |s.workers| ==> s.workers[i].id == i + 1)
    && |s.workQueue| <= s.bufferSize
    && multiset(s.submitted) == Accounted(s)
    && s.jobs + s.pendingStarts == |s.submitted| - |s.handled|
  }

  /** A successful `Start` satisfies the invariant. */
  lemma StartEstablishesInv(workerCount: int, bufferSize: int)
    requires Start(workerCount, bufferSize).Success?
    ensures Inv(Start(workerCount, bufferSize).value)
  {
    var s := Start(workerCount, bufferSize).value;
    NoneHeld(s.workers);
  }

  lemma {:induction false} NoneHeld(ws: seq<Worker>)
    requires forall i :: 0 <= i < |ws| ==> !ws[i].phase.Busy?
    ensures HeldJobs(ws) == multiset{}
    decreases |ws|
  {
    if ws != [] {
      NoneHeld(ws[..|ws| - 1]);
    }
  }

  /** Jobs sent but not yet taken by a worker: buffered, or waiting in a hand-off goroutine. */
  function Waiting(s: State): multiset<Dispatch> {
    multiset(s.workQueue) + multiset(s.handoffs)
  }

  /** Where every submitted job is now: finished, waiting for a worker, or held. */
  function Accounted(s: State): multiset<Dispatch> {
    multiset(s.handled) + Waiting(s) + HeldJobs(s.workers)
  }

  /** Changing one worker's phase keeps the numbering. */
  lemma WorkerUpdateKeepsIds(s: State, t: State, id: int, p: Phase)
    requires forall i :: 0 <= i < |s.workers| ==> s.workers[i].id == i + 1
    requires HasWorker(s, id)
    requires t.workers == s.workers[id - 1 := Worker(s.workers[id - 1].id, p)]
    ensures forall i :: 0 <= i < |t.workers| ==> t.workers[i].id == i + 1
  {
  }

  /** A job added to one of the three places is added to the whole. */
  lemma AddOne<T>(done: multiset<T>, wait: multiset<T>, held: multiset<T>, x: multiset<T>)
    ensures done + (wait + x) + held == done + wait + held + x
    ensures done + wait + (held + x) == done + wait + held + x
  {
  }

  /** A job that moves between the three places leaves the whole unchanged. */
  lemma MoveOne<T>(done: multiset<T>, wait: multiset<T>, held: multiset<T>, x: multiset<T>)
    ensures (done + x) + wait + held == done + wait + (held + x)
    ensures done + (wait + x) + held == done + wait + (held + x)
  {
  }

  /** A sent job lands among the waiting ones. */
  lemma LandsWaiting(s: State, t: State, job: Dispatch)
    requires Lands(s, t, job)
    ensures Waiting(t) == Waiting(s) + multiset{job}
  {
    if s.bufferSize == 0 {
      assert multiset(t.handoffs) == multiset(s.handoffs) + multiset{job};
    } else {
      assert multiset(t.workQueue) == multiset(s.workQueue) + multiset{job};
    }
  }

  /** The accounting step shared by `Enqueue` and `Submit`: one more job sent, and it waits. */
  lemma SendKeepsAccounted(s: State, t: State, job: Dispatch)
    requires multiset(s.submitted) == Accounted(s)
    requires Lands(s, t, job)
    requires t.submitted == s.submitted + [job]
    requires t.handled == s.handled && t.workers == s.workers
    ensures multiset(t.submitted) == Accounted(t)
  {
    LandsWaiting(s, t, job);
    AddOne(multiset(s.handled), Waiting(s), HeldJobs(s.workers), multiset{job});
  }

  lemma EnqueueKeepsInv(s: State, g: string, ty: int, m: Option<seq<byte>>)
    requires Inv(s)
    requires NextEnqueue(s, g, ty, m).Some?
    ensures Inv(NextEnqueue(s, g, ty, m).value)
  {
    var t := NextEnqueue(s, g, ty, m).value;
    assert t.handled == s.handled && t.workers == s.workers && t.jobs == s.jobs;
    assert t.workerCount == s.workerCount && t.bufferSize == s.bufferSize;
    SendKeepsAccounted(s, t, JobOf(g, ty, m));
  }

  lemma StartJobKeepsInv(s: State)
    requires Inv(s)
    requires NextStartJob(s).Some?
    ensures Inv(NextStartJob(s).value)
  {
    var t := NextStartJob(s).value;
    assert t.handled == s.handled && t.workers == s.workers && t.submitted == s.submitted;
    assert t.workQueue == s.workQueue && t.handoffs == s.handoffs;
    assert t.workerCount == s.workerCount && t.bufferSize == s.bufferSize;
    assert Accounted(t) == Accounted(s);
  }

  lemma SubmitKeepsInv(s: State, g: string, ty: int, m: Option<seq<byte>>)
    requires Inv(s)
    requires NextSubmit(s, g, ty, m).Some?
    ensures Inv(NextSubmit(s, g, ty, m).value)
  {
    var t := NextSubmit(s, g, ty, m).value;
    assert t.handled == s.handled && t.workers == s.workers && t.pendingStarts == s.pendingStarts;
    assert t.workerCount == s.workerCount && t.bufferSize == s.bufferSize;
    SendKeepsAccounted(s, t, JobOf(g, ty, m));
  }

  lemma ReceiveKeepsInv(s: State)
    requires Inv(s)
    requires NextReceive(s).Some?
    ensures Inv(NextReceive(s).value)
  {
    var t := NextReceive(s).value;
    assert t.handled == s.handled && t.workers == s.workers && t.submitted == s.submitted;
    assert t.jobs == s.jobs && t.pendingStarts == s.pendingStarts;
    assert t.workerCount == s.workerCount && t.bufferSize == s.bufferSize;
    assert s.workQueue == [s.workQueue[0]] + s.workQueue[1..];
    assert multiset(s.workQueue) == multiset{s.workQueue[0]} + multiset(s.workQueue[1..]);
    assert Waiting(t) == Waiting(s);
  }

  lemma HandOffKeepsInv(s: State, k: nat, id: int)
    requires Inv(s)
    requires NextHandOff(s, k, id).Some?
    ensures Inv(NextHandOff(s, k, id).value)
  {
    var t := NextHandOff(s, k, id).value;
    var job := s.handoffs[k];
    assert t.handled == s.handled && t.workQueue == s.workQueue && t.submitted == s.submitted;
    assert t.jobs == s.jobs && t.pendingStarts == s.pendingStarts;
    assert t.workerCount == s.workerCount && t.bufferSize == s.bufferSize;
    WorkerUpdateKeepsIds(s, t, id, Busy(job));
    HeldJobsTake(s.workers, id - 1, Worker(s.workers[id - 1].id, Busy(job)));
    assert Waiting(t) + multiset{job} == Waiting(s);
    MoveOne(multiset(s.handled), Waiting(t), HeldJobs(s.workers), multiset{job});
    assert Accounted(t) == Accounted(s);
  }

  lemma RegisterKeepsInv(s: State, id: int)
    requires Inv(s)
    requires NextRegister(s, id).Some?
    ensures Inv(NextRegister(s, id).value)
  {
    var t := NextRegister(s, id).value;
    assert t.handled == s.handled && t.workQueue == s.workQueue && t.handoffs == s.handoffs;
    assert t.submitted == s.submitted && t.jobs == s.jobs && t.pendingStarts == s.pendingStarts;
    assert t.workerCount == s.workerCount && t.bufferSize == s.bufferSize;
    WorkerUpdateKeepsIds(s, t, id, Idle);
    HeldJobsKeep(s.workers, id - 1, Worker(s.workers[id - 1].id, Idle));
    assert Accounted(t) == Accounted(s);
  }

  lemma HandleJobKeepsInv(s: State, id: int, reg: Delivery.Registry, cfg: Delivery.Config, oracle: Delivery.Oracle)
    requires Inv(s)
    requires NextHandleJob(s, id, reg, cfg, oracle).Some?
    ensures Inv(NextHandleJob(s, id, reg, cfg, oracle).value)
  {
    var t := NextHandleJob(s, id, reg, cfg, oracle).value;
    var job := s.workers[id - 1].phase.job;
    assert t.workQueue == s.workQueue && t.handoffs == s.handoffs && t.submitted == s.submitted;
    assert t.pendingStarts == s.pendingStarts;
    assert t.workerCount == s.workerCount && t.bufferSize == s.bufferSize;
    WorkerUpdateKeepsIds(s, t, id, Unregistered);
    HeldJobsDrop(s.workers, id - 1, Worker(s.workers[id - 1].id, Unregistered));
    assert multiset(t.handled) == multiset(s.handled) + multiset{job};
    MoveOne(multiset(s.handled), Waiting(s), HeldJobs(t.workers), multiset{job});
    assert Accounted(t) == Accounted(s);
  }

  /** Every step preserves the invariant and the pool's two capacities. */
  lemma NextPreservesInv(s: State, e: Event)
    requires Inv(s)
    requires Next(s, e).Some?
    ensures Inv(Next(s, e).value)
    ensures Next(s, e).value.workerCount == s.workerCount
    ensures Next(s, e).value.bufferSize == s.bufferSize
  {
    match e
    case Enqueue(g, ty, m) => EnqueueKeepsInv(s, g, ty, m);
    case StartJob => StartJobKeepsInv(s);
    case Receive => ReceiveKeepsInv(s);
    case HandOff(k, id) => HandOffKeepsInv(s, k, id);
    case Register(id) => RegisterKeepsInv(s, id);
    case HandleJob(id, reg, cfg, oracle) => HandleJobKeepsInv(s, id, reg, cfg, oracle);
    case Submit(g, ty, m) => SubmitKeepsInv(s, g, ty, m);
  }

  /** Every run from a state satisfying the invariant ends in one. */
  lemma {:induction false} RunPreservesInv(s: State, events: seq<Event>)
    requires Inv(s)
    requires Run(s, events).Some?
    ensures Inv(Run(s, events).value)
    ensures Run(s, events).value.workerCount == s.workerCount
    ensures Run(s, events).value.bufferSize == s.bufferSize
    decreases |events|
  {
    if events != [] {
      NextPreservesInv(s, events[0]);
      RunPreservesInv(Next(s, events[0]).value, events[1..]);
    }
  }

  /**
   * Conservation: from any started dispatcher, after any run, `Jobs` plus the
   * owed deferred increments equals the jobs in flight, which equals jobs
   * submitted minus jobs finished; when no increment is owed, `Jobs` itself
   * is submitted minus finished. Every submitted job is finished, queued,
   * waiting for a worker or held by one, exactly once.
   */
  lemma Conservation(workerCount: int, bufferSize: int, events: seq<Event>)
    requires Start(workerCount, bufferSize).Success?
    requires Run(Start(workerCount, bufferSize).value, events).Some?
    ensures var s := Run(Start(workerCount, bufferSize).value, events).value;
            && s.jobs + s.pendingStarts == InFlight(s)
            && s.jobs + s.pendingStarts == |s.submitted| - |s.handled|
            && (s.pendingStarts == 0 ==> s.jobs == |s.submitted| - |s.handled|)
            && multiset(s.submitted)
               == multiset(s.handled) + multiset(s.workQueue) + multiset(s.handoffs) + HeldJobs(s.workers)
  {
    var s0 := Start(workerCount, bufferSize).value;
    StartEstablishesInv(workerCount, bufferSize);
    RunPreservesInv(s0, events);
    var s := Run(s0, events).value;
    assert |multiset(s.submitted)| == |multiset(s.handled)| + InFlight(s);
  }

  /** Workers keep their IDs 1..workerCount and each holds at most one job. */
  lemma WorkersStayNumbered(workerCount: int, bufferSize: int, events: seq<Event>)
    requires Start(workerCount, bufferSize).Success?
    requires Run(Start(workerCount, bufferSize).value, events).Some?
    ensures var s := Run(Start(workerCount, bufferSize).value, events).value;
            && |s.workers| == workerCount
            && (forall i :: 0 <= i < |s.workers| ==> s.workers[i].id == i + 1)
            && |s.workQueue| <= bufferSize
  {
    StartEstablishesInv(workerCount, bufferSize);
    RunPreservesInv(Start(workerCount, bufferSize).value, events);
  }

  /** Every event of a corrected run keeps the deferred-increment count at zero. */
  lemma {:induction false} CorrectedRunOwesNothing(s: State, events: seq<Event>)
    requires s.pendingStarts == 0
    requires forall i :: 0 <= i < |events| ==> Corrected(events[i])
    requires Run(s, events).Some?
    ensures Run(s, events).value.pendingStarts == 0
    decreases |events|
  {
    if events != [] {
      assert Corrected(events[0]);
      CorrectedRunOwesNothing(Next(s, events[0]).value, events[1..]);
    }
  }

  /**
   * In a state that satisfies the invariant and owes no increment, `Jobs` is
   * exactly the number of jobs in flight: it is never negative, and `Wait`
   * returns exactly when nothing is queued, waiting for a worker or being
   * handled.
   */
  lemma WaitIsExact(t: State)
    requires Inv(t) && t.pendingStarts == 0
    ensures t.jobs == InFlight(t)
    ensures t.jobs >= 0
    ensures WaitReturns(t) <==> t.workQueue == [] && t.handoffs == [] && HeldJobs(t.workers) == multiset{}
  {
    assert |multiset(t.submitted)| == |multiset(t.handled)| + InFlight(t);
  }

  /**
   * With the corrected accounting, `WaitIsExact` holds after every run: `Jobs`
   * is never negative, and `Wait` returns exactly when nothing is in flight.
   */
  lemma CorrectedWaitIsExact(s: State, events: seq<Event>)
    requires Inv(s) && s.pendingStarts == 0
    requires forall i :: 0 <= i < |events| ==> Corrected(events[i])
    requires Run(s, events).Some?
    ensures var t := Run(s, events).value;
            && t.jobs == InFlight(t)
            && t.jobs >= 0
            && (WaitReturns(t) <==> t.workQueue == [] && t.handoffs == [] && HeldJobs(t.workers) == multiset{})
  {
    RunPreservesInv(s, events);
    CorrectedRunOwesNothing(s, events);
    WaitIsExact(Run(s, events).value);
  }

  /**
   * As written, `Wait` can return while a job is still queued: in any freshly
   * started dispatcher with a buffer, a `DispatchHook` whose send has
   * completed but whose deferred `startJob` has not run leaves `Jobs` at 0
   * with one job in flight.
   */
  lemma AsWrittenWaitReturnsEarly(workerCount: int, bufferSize: int, gameID: string, eventType: int, marshalled: Option<seq<byte>>)
    requires Start(workerCount, bufferSize).Success?
    requires bufferSize > 0
    ensures var s := Run(Start(workerCount, bufferSize).value, [Enqueue(gameID, eventType, marshalled)]);
            && s.Some?
            && WaitReturns(s.value)
            && InFlight(s.value) == 1
            && |s.value.workQueue| == 1
  {
    var s0 := Start(workerCount, bufferSize).value;
    var s1 := NextEnqueue(s0, gameID, eventType, marshalled).value;
    assert Run(s1, []) == Some(s1);
    NoneHeld(s1.workers);
  }

  /**
   * As written, `Wait` can return while the job of a `DispatchHook` call that
   * has already returned is still queued. The first call's job is received,
   * handed off and finished before its deferred `startJob` runs (`Jobs` is
   * -1); a second call then sends its job and its `startJob` runs, so it has
   * returned, yet `Jobs` reads 0 with the second job in the queue.
   */
  lemma AsWrittenWaitReturnsAfterDispatchReturned()
    ensures var oracle: Delivery.Oracle := (k, req) => Delivery.Status(200);
            var events := [Register(1), Enqueue("game1", 1, Some([])), Receive, HandOff(0, 1),
                           HandleJob(1, map[], Delivery.Config(5, "1.0"), oracle),
                           Enqueue("game1", 2, Some([])), StartJob];
            var s := Run(Start(1, 1).value, events);
            && s.Some?
            && WaitReturns(s.value)
            && s.value.workQueue == [Delivery.Dispatch("game1", 2, [])]
  {
    var oracle: Delivery.Oracle := (k, req) => Delivery.Status(200);
    var cfg := Delivery.Config(5, "1.0");
    var s0 := Start(1, 1).value;
    var s1 := NextRegister(s0, 1).value;
    var s2 := NextEnqueue(s1, "game1", 1, Some([])).value;
    var s3 := NextReceive(s2).value;
    var s4 := NextHandOff(s3, 0, 1).value;
    var s5 := NextHandleJob(s4, 1, map[], cfg, oracle).value;
    var s6 := NextEnqueue(s5, "game1", 2, Some([])).value;
    var s7 := NextStartJob(s6).value;
    assert Run(s7, []) == Some(s7);
    assert Run(s6, [StartJob]) == Some(s7);
    assert Run(s5, [Enqueue("game1", 2, Some([])), StartJob]) == Some(s7);
    assert Run(s4, [HandleJob(1, map[], cfg, oracle), Enqueue("game1", 2, Some([])), StartJob]) == Some(s7);
    assert Run(s3, [HandOff(0, 1), HandleJob(1, map[], cfg, oracle), Enqueue("game1", 2, Some([])), StartJob]) == Some(s7);
    assert Run(s2, [Receive, HandOff(0, 1), HandleJob(1, map[], cfg, oracle), Enqueue("game1", 2, Some([])), StartJob]) == Some(s7);
    assert Run(s1, [Enqueue("game1", 1, Some([])), Receive, HandOff(0, 1), HandleJob(1, map[], cfg, oracle), Enqueue("game1", 2, Some([])), StartJob]) == Some(s7);
  }

  /**
   * As written, `Jobs` can go negative: the job is received, handed to the
   * worker and finished before the producer's deferred `startJob` runs.
   */
  lemma AsWrittenJobsGoNegative()
    ensures var oracle: Delivery.Oracle := (k, req) => Delivery.Status(200);
            var events := [Register(1), Enqueue("game1", 1, Some([])), Receive, HandOff(0, 1),
                           HandleJob(1, map[], Delivery.Config(5, "1.0"), oracle)];
            var s := Run(Start(1, 1).value, events);
            s.Some? && s.value.jobs == -1
  {
    var oracle: Delivery.Oracle := (k, req) => Delivery.Status(200);
    var cfg := Delivery.Config(5, "1.0");
    var s0 := Start(1, 1).value;
    var s1 := NextRegister(s0, 1).value;
    var s2 := NextEnqueue(s1, "game1", 1, Some([])).value;
    var s3 := NextReceive(s2).value;
    var s4 := NextHandOff(s3, 0, 1).value;
    var s5 := NextHandleJob(s4, 1, map[], cfg, oracle).value;
    assert Run(s5, []) == Some(s5);
    assert Run(s4, [HandleJob(1, map[], cfg, oracle)]) == Some(s5);
    assert Run(s3, [HandOff(0, 1), HandleJob(1, map[], cfg, oracle)]) == Some(s5);
    assert Run(s2, [Receive, HandOff(0, 1), HandleJob(1, map[], cfg, oracle)]) == Some(s5);
    assert Run(s1, [Enqueue("game1", 1, Some([])), Receive, HandOff(0, 1), HandleJob(1, map[], cfg, oracle)]) == Some(s5);
  }

  /** The delivery half of `EndToEnd`: one POST of the payload to each hook, in order, with no error. */
  lemma EndToEndDelivery()
    ensures var payload: seq<byte> := [123, 34, 97, 34, 58, 49, 125];
            var hooks := [Delivery.Hook("http://h1"), Delivery.Hook("http://h2")];
            var reg := map["game1" := map[7 := hooks]];
            var oracle: Delivery.Oracle := (k, req) => Delivery.Status(200);
            var report := Delivery.DispatchHook(reg, JobOf("game1", 7, Some(payload)), Delivery.Config(5, "1.0"), oracle);
            && |report.attempts| == 2
            && report.attempts[0].request == Delivery.Request("POST", "http://h1", payload, 5, "khan-1.0")
            && report.attempts[1].request == Delivery.Request("POST", "http://h2", payload, 5, "khan-1.0")
            && report.errors == 0
  {
    var payload: seq<byte> := [123, 34, 97, 34, 58, 49, 125];
    var hooks := [Delivery.Hook("http://h1"), Delivery.Hook("http://h2")];
    var reg := map["game1" := map[7 := hooks]];
    var oracle: Delivery.Oracle := (k, req) => Delivery.Status(200);
    var job := JobOf("game1", 7, Some(payload));
    var report := Delivery.DispatchHook(reg, job, Delivery.Config(5, "1.0"), oracle);
    assert Delivery.HooksFor(reg, job) == hooks;
    assert Delivery.FailedIndices(report.attempts) == {};
  }

  /** Running two event sequences one after the other is running their concatenation. */
  lemma {:induction false} RunAppend(s: State, a: seq<Event>, b: seq<Event>)
    requires Run(s, a).Some?
    ensures Run(s, a + b) == Run(Run(s, a).value, b)
    decreases |a|
  {
    if a == [] {
      assert a + b == b;
    } else {
      var t := Next(s, a[0]).value;
      assert (a + b)[0] == a[0];
      assert (a + b)[1..] == a[1..] + b;
      assert Run(s, a) == Run(t, a[1..]);
      RunAppend(t, a[1..], b);
    }
  }

  /** The submission half of `EndToEnd`: both workers register and the job is sent and counted. */
  lemma EndToEndSubmitted(job: Dispatch)
    requires job == JobOf("game1", 7, Some([123, 34, 97, 34, 58, 49, 125]))
    ensures var s := Run(Start(2, 4).value, [Register(1), Register(2), Enqueue("game1", 7, Some([123, 34, 97, 34, 58, 49, 125])), StartJob]);
            && s.Some?
            && s.value.workQueue == [job] && s.value.handoffs == []
            && s.value.workers == [Worker(1, Idle), Worker(2, Idle)]
            && s.value.jobs == 1 && s.value.pendingStarts == 0
            && s.value.handled == [] && s.value.errors == 0
  {
    var m := Some([123, 34, 97, 34, 58, 49, 125]);
    var s0 := Start(2, 4).value;
    var s1 := NextRegister(s0, 1).value;
    var s2 := NextRegister(s1, 2).value;
    var s3 := NextEnqueue(s2, "game1", 7, m).value;
    var s4 := NextStartJob(s3).value;
    assert Run(s4, []) == Some(s4);
    assert Run(s3, [StartJob]) == Some(s4);
    assert Run(s2, [Enqueue("game1", 7, m), StartJob]) == Some(s4);
    assert Run(s1, [Register(2), Enqueue("game1", 7, m), StartJob]) == Some(s4);
  }

  /** The handling half of `EndToEnd`: the job is received, handed to worker 2 and handled. */
  lemma EndToEndHandled(s: State, job: Dispatch, reg: Delivery.Registry, cfg: Delivery.Config, oracle: Delivery.Oracle)
    requires s.workQueue == [job] && s.handoffs == []
    requires s.workers == [Worker(1, Idle), Worker(2, Idle)]
    requires s.jobs == 1 && s.handled == [] && s.errors == 0
    requires Delivery.DispatchHook(reg, job, cfg, oracle).errors == 0
    ensures var t := Run(s, [Receive, HandOff(0, 2), HandleJob(2, reg, cfg, oracle)]);
            && t.Some?
            && t.value.workQueue == [] && t.value.handoffs == []
            && t.value.workers == [Worker(1, Idle), Worker(2, Unregistered)]
            && t.value.jobs == 0 && t.value.handled == [job] && t.value.errors == 0
  {
    var s5 := NextReceive(s).value;
    var s6 := NextHandOff(s5, 0, 2).value;
    var s7 := NextHandleJob(s6, 2, reg, cfg, oracle).value;
    assert Run(s7, []) == Some(s7);
    assert Run(s6, [HandleJob(2, reg, cfg, oracle)]) == Some(s7);
    assert Run(s5, [HandOff(0, 2), HandleJob(2, reg, cfg, oracle)]) == Some(s7);
  }

  /**
   * End to end: two workers, a buffer of four, two hooks for the event; one
   * `DispatchHook` runs to completion. Nothing is left in flight, no error is
   * counted and `Wait` returns; `EndToEndDelivery` gives the two POSTs.
   */
  lemma EndToEnd()
    ensures var payload: seq<byte> := [123, 34, 97, 34, 58, 49, 125];
            var hooks := [Delivery.Hook("http://h1"), Delivery.Hook("http://h2")];
            var reg := map["game1" := map[7 := hooks]];
            var cfg := Delivery.Config(5, "1.0");
            var oracle: Delivery.Oracle := (k, req) => Delivery.Status(200);
            var events := [Register(1), Register(2), Enqueue("game1", 7, Some(payload)), StartJob,
                           Receive, HandOff(0, 2), HandleJob(2, reg, cfg, oracle)];
            var s := Run(Start(2, 4).value, events);
            && s.Some?
            && s.value.jobs == 0 && WaitReturns(s.value) && InFlight(s.value) == 0
            && s.value.handled == [Delivery.Dispatch("game1", 7, payload)]
            && s.value.errors == 0
  {
    var payload: seq<byte> := [123, 34, 97, 34, 58, 49, 125];
    var hooks := [Delivery.Hook("http://h1"), Delivery.Hook("http://h2")];
    var reg := map["game1" := map[7 := hooks]];
    var cfg := Delivery.Config(5, "1.0");
    var oracle: Delivery.Oracle := (k, req) => Delivery.Status(200);
    var job := JobOf("game1", 7, Some(payload));
    var first := [Register(1), Register(2), Enqueue("game1", 7, Some(payload)), StartJob];
    var second := [Receive, HandOff(0, 2), HandleJob(2, reg, cfg, oracle)];
    EndToEndDelivery();
    EndToEndSubmitted(job);
    var s4 := Run(Start(2, 4).value, first).value;
    EndToEndHandled(s4, job, reg, cfg, oracle);
    RunAppend(Start(2, 4).value, first, second);
    assert first + second == [Register(1), Register(2), Enqueue("game1", 7, Some(payload)), StartJob,
                              Receive, HandOff(0, 2), HandleJob(2, reg, cfg, oracle)];
    var t := Run(s4, second).value;
    NoneHeld(t.workers);
  }
}
