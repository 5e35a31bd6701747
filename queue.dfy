/**
 * The optional request queue: a bounded FIFO backlog of jobs, workers that
 * take one job at a time, and start/stop flags. A job's context is
 * represented by what `ctx.Err()` reports: `None` while it is live.
 */
module Queue {
  import opened Common
  import opened Types

  /** Capacity of the backlog channel. */
  const QueueCapacity: nat := 50

  /**
   * A queued job: its action, and what its context reported when it was
   * admitted. A context's cancellation is permanent, so a job admitted with
   * a done context is still done when a worker looks at it; a live one may
   * have been cancelled since.
   */
  datatype QueuedRequest<A> = QueuedRequest(action: A, admittedErr: Option<Error>)

  /** How `Enqueue`'s select ends. */
  datatype Admission = Admitted | Cancelled(err: Error) | WouldBlock

  /** Worker count after normalisation: at least one. */
  function NormalWorkers(workers: int): (w: int)
    ensures w >= 1
    ensures workers >= 1 ==> w == workers
  {
    if workers <= 0 then 1 else workers
  }

  /** Pacing interval after normalisation: positive, one second by default. */
  function NormalInterval(interval: Duration): (i: Duration)
    ensures i > 0
    ensures interval > 0 ==> i == interval
    ensures interval <= 0 ==> i == Second
  {
    if interval <= 0 then Second else interval
  }

  /** What the worker sends back for a job: the context's error, else the action's own result. */
  function JobResponse<A>(ctxErr: Option<Error>, execute: A -> Option<Error>, job: QueuedRequest<A>): (r: Option<Error>)
    ensures ctxErr.Some? ==> r == ctxErr
    ensures ctxErr.None? ==> r == execute(job.action)
  {
    if ctxErr.Some? then ctxErr else execute(job.action)
  }

  class RequestQueue<A> {
    var backlog: seq<QueuedRequest<A>>
    var workers: int
    var interval: Duration
    var running: bool
    /** Whether the `stop` channel has been closed. */
    var stopClosed: bool

    ghost predicate Valid()
      reads this
    {
      |backlog| <= QueueCapacity && workers >= 1 && interval > 0
    }

    /** `NewRequestQueue`. */
    constructor (workers: int, interval: Duration)
      ensures Valid()
      ensures this.workers == NormalWorkers(workers) && this.interval == NormalInterval(interval)
      ensures backlog == [] && !running && !stopClosed
    {
      this.workers := NormalWorkers(workers);
      this.interval := NormalInterval(interval);
      backlog := [];
      running := false;
      stopClosed := false;
    }

    /** `Start`: a no-op when running; otherwise mark running (launching the workers is not modelled). */
    method Start()
      requires Valid()
      modifies this
      ensures Valid()
      ensures running
      ensures backlog == old(backlog) && stopClosed == old(stopClosed)
      ensures workers == old(workers) && interval == old(interval)
    {
      if running {
        return;
      }
      running := true;
    }

    /**
     * `Stop`: a no-op when not running; otherwise clear `running` and close
     * `stop`. Closing a channel that is already closed panics in Go, which
     * `panicked` reports.
     */
    method Stop() returns (panicked: bool)
      requires Valid()
      modifies this
      ensures Valid()
      ensures !running
      ensures panicked <==> old(running) && old(stopClosed)
      ensures stopClosed == (old(stopClosed) || old(running))
      ensures backlog == old(backlog) && workers == old(workers) && interval == old(interval)
    {
      panicked := false;
      if !running {
        return;
      }
      running := false;
      panicked := stopClosed;
      stopClosed := true;
    }

    /**
     * `Enqueue`'s select. With a done context and room in the backlog both
     * cases are ready and Go picks one at random: `preferCancel` is that choice.
     * With a live context and a full backlog the caller blocks.
     */
    method Enqueue(action: A, ctxErr: Option<Error>, preferCancel: bool) returns (r: Admission)
      requires Valid()
      modifies this
      ensures Valid()
      ensures r.Admitted? ==> backlog == old(backlog) + [QueuedRequest(action, ctxErr)]
      ensures !r.Admitted? ==> backlog == old(backlog)
      ensures r.Admitted? <==> |old(backlog)| < QueueCapacity && (ctxErr.None? || !preferCancel)
      ensures r.Cancelled? <==> ctxErr.Some? && (|old(backlog)| == QueueCapacity || preferCancel)
      ensures r.Cancelled? ==> r.err == ctxErr.value
      ensures running == old(running) && stopClosed == old(stopClosed)
      ensures workers == old(workers) && interval == old(interval)
    {
      var room := |backlog| < QueueCapacity;
      if ctxErr.Some? && (!room || preferCancel) {
        return Cancelled(ctxErr.value);
      }
      if room {
        backlog := backlog + [QueuedRequest(action, ctxErr)];
        return Admitted;
      }
      return WouldBlock;
    }

    /**
     * One job of a worker's loop: take the oldest job; if its context is done
     * answer with the context's error without running it, else answer with
     * what running it returns. With nothing queued the worker would block.
     * Workers exist only once `Start` has run, which leaves `running` or,
     * after a `Stop`, `stopClosed` set; a stopped worker may still win its
     * select against `stop` and take a job.
     */
    method WorkerStep(ctxErr: Option<Error>, execute: A -> Option<Error>)
      returns (job: Option<QueuedRequest<A>>, response: Option<Error>, executed: bool)
      requires Valid() && (running || stopClosed)
      requires backlog != [] && backlog[0].admittedErr.Some? ==> ctxErr == backlog[0].admittedErr
      modifies this
      ensures Valid()
      ensures old(backlog) == [] ==> job.None? && !executed && backlog == old(backlog)
      ensures old(backlog) != [] ==> job == Some(old(backlog)[0]) && backlog == old(backlog)[1..]
      ensures job.Some? ==> response == JobResponse(ctxErr, execute, job.value)
      ensures executed <==> job.Some? && ctxErr.None?
      ensures running == old(running) && stopClosed == old(stopClosed)
      ensures workers == old(workers) && interval == old(interval)
    {
      if backlog == [] {
        return None, None, false;
      }
      var head := backlog[0];
      backlog := backlog[1..];
      if ctxErr.Some? {
        return Some(head), ctxErr, false;
      }
      return Some(head), execute(head.action), true;
    }

    /** `Depth`: the number of admitted jobs no worker has taken yet. */
    method Depth() returns (d: nat)
      requires Valid()
      ensures d == |backlog| && d <= QueueCapacity
    {
      return |backlog|;
    }
  }

  /** Jobs leave the backlog in the order they were admitted. */
  method AdmissionIsFifo<A>(x: A, y: A, execute: A -> Option<Error>)
    returns (first: Option<QueuedRequest<A>>, second: Option<QueuedRequest<A>>)
    ensures first == Some(QueuedRequest(x, None)) && second == Some(QueuedRequest(y, None))
  {
    var q := new RequestQueue<A>(2, 0);
    q.Start();
    var a := q.Enqueue(x, None, false);
    var b := q.Enqueue(y, None, false);
    var r1, e1;
    first, r1, e1 := q.WorkerStep(None, execute);
    second, r1, e1 := q.WorkerStep(None, execute);
  }

  /** A job whose context is done by the time a worker takes it answers with the context's error unexecuted. */
  method CancelledJobNotExecuted<A>(x: A, cancel: Error, execute: A -> Option<Error>)
    returns (response: Option<Error>, executed: bool)
    ensures response == Some(cancel) && !executed
  {
    var q := new RequestQueue<A>(1, Second);
    q.Start();
    var a := q.Enqueue(x, None, false);
    var job;
    job, response, executed := q.WorkerStep(Some(cancel), execute);
  }

  /**
   * A job whose context is already done may still be admitted when Go's
   * select picks the send; a worker then answers it with the context's
   * error, and never runs it.
   */
  method DoneAtAdmissionNeverRuns<A>(x: A, cancel: Error, execute: A -> Option<Error>)
    returns (admission: Admission, response: Option<Error>, executed: bool)
    ensures admission == Admitted && response == Some(cancel) && !executed
  {
    var q := new RequestQueue<A>(1, Second);
    q.Start();
    admission := q.Enqueue(x, Some(cancel), false);
    var job;
    job, response, executed := q.WorkerStep(Some(cancel), execute);
  }

  /** The backlog admits 50 jobs; a 51st with a live context would block, one with a done context is cancelled. */
  method BacklogBound<A>(x: A, cancel: Error) returns (live: Admission, done: Admission, depth: nat)
    ensures live == WouldBlock && done == Cancelled(cancel) && depth == QueueCapacity
  {
    var q := new RequestQueue<A>(1, Second);
    var i := 0;
    while i < QueueCapacity
      invariant 0 <= i <= QueueCapacity
      invariant q.Valid() && |q.backlog| == i
    {
      var r := q.Enqueue(x, None, false);
      i := i + 1;
    }
    live := q.Enqueue(x, None, false);
    done := q.Enqueue(x, Some(cancel), false);
    depth := q.Depth();
  }

  /** Stopping twice is harmless: the second call does nothing. */
  method StopTwiceIsIdempotent() returns (first: bool, second: bool)
    ensures !first && !second
  {
    var q := new RequestQueue<int>(1, Second);
    q.Start();
    first := q.Stop();
    second := q.Stop();
  }

  /**
   * Restarting is not: after Start, Stop, Start, the next Stop closes the
   * already-closed `stop` channel, which panics.
   */
  method RestartThenStopPanics() returns (panicked: bool)
    ensures panicked
  {
    var q := new RequestQueue<int>(1, Second);
    q.Start();
    var p := q.Stop();
    q.Start();
    panicked := q.Stop();
  }
}
