/** The job lifecycle as a step machine. Every store call of every `CreateJob`,
    worker and retry scheduler is a step of its own, steps interleave freely,
    and each call may succeed, be refused, or be applied with its reply lost. */
module JobProtocol {
  import opened Outcomes
  import opened JobStore
  import Backoff

  /** What a worker holding a job does next. */
  datatype Point =
    | Counting      // incrementActiveWorkers
    | Marking       // MarkProcessing
    | Starting      // UpdateJobToProcessing
    | Handling      // the handler
    | Completing    // UpdateJobToCompleted
    | Clearing      // MarkCompleted
    | TallyDone     // incrementTotalProcessed
    | Failing       // UpdateJobToFailed or UpdateJobToRetrying
    | Rescheduling  // MarkFailed
    | TallyFailed   // incrementTotalFailed

  /** `Polling` is the top of the loop, where cancellation is looked at; `Waiting`
      is past that look, inside `Dequeue`. */
  datatype Worker = Unlaunched | Polling | Waiting | Busy(at: Point, job: Job) | Leaving | Stopped

  /** `batch` is what remains of the last selection; `pushing` says that the row
      of its head is already back to pending. */
  datatype Scheduler = Scheduler(batch: seq<Job>, pushing: bool)

  datatype Stats = Stats(active: int, processingJobs: int, totalProcessed: int, totalFailed: int)

  /** Start and Stop: goroutines launched so far, whether `Start` is done, the
      statistics goroutine, cancellation, and the wait group's counter. */
  datatype Life = Life(launched: nat, started: bool, collector: bool, cancelled: bool, wg: int)

  /** What happened so far: ids ever generated, ids taken off the queue, jobs
      returned by `Dequeue`, jobs dropped on a `MarkProcessing` error, handler
      invocations per id, ids a lost or refused call left in the processing set. */
  datatype History = History(
    issued: set<Id>,
    popped: set<Id>,
    dequeued: int,
    dropped: int,
    handled: multiset<Id>,
    leaked: set<Id>)

  datatype State = State(
    rows: map<Id, Row>,
    queue: seq<Job>,
    processing: set<Id>,
    retry: set<Id>,
    creating: map<nat, Job>,
    workers: seq<Worker>,
    schedulers: seq<Scheduler>,
    stats: Stats,
    life: Life,
    hist: History,
    platform: int)

  datatype Result = Succeeds | Fails | NoHandler

  datatype Step =
    | Create(call: nat, id: Id, requested: int, o: Outcome)
    | Push(call: nat, o: Outcome, future: bool)
    | Launch
    | FinishStart
    | Cancel
    | CollectorQuits
    | Quit(w: nat)
    | Look(w: nat)
    | Poll(w: nat, o: Outcome)
    | Work(w: nat, o: Outcome, result: Result)
    | Leave(w: nat)
    | Select(k: nat, batch: seq<Job>)
    | Reopen(k: nat, o: Outcome)
    | Repush(k: nat, o: Outcome, future: bool)

  /** What `GetRetryableJobs` may return: snapshots of distinct reopenable rows,
      at most a hundred. Which of them pass the age filter is left open. */
  predicate Selection(rows: map<Id, Row>, batch: seq<Job>) {
    && |batch| <= 100
    && (forall i :: 0 <= i < |batch| ==>
          && batch[i].id in rows
          && Reopenable(rows[batch[i].id])
          && batch[i] == Snapshot(batch[i].id, rows[batch[i].id]))
    && (forall i, j :: 0 <= i < j < |batch| ==> batch[i].id != batch[j].id)
  }

  predicate Enabled(s: State, a: Step) {
    match a
    case Create(call, id, _, _) => call !in s.creating && id !in s.hist.issued
    case Push(call, _, _) => call in s.creating
    case Launch => !s.life.started && s.life.launched < |s.workers|
    case FinishStart => !s.life.started && s.life.launched == |s.workers|
    case Cancel => true
    case CollectorQuits => s.life.collector && s.life.cancelled
    case Quit(w) => w < |s.workers| && s.workers[w].Polling? && s.life.cancelled
    case Look(w) => w < |s.workers| && s.workers[w].Polling? && !s.life.cancelled
    case Poll(w, _) => w < |s.workers| && s.workers[w].Waiting?
    case Work(w, _, _) => w < |s.workers| && s.workers[w].Busy?
    case Leave(w) => w < |s.workers| && s.workers[w].Leaving?
    case Select(k, batch) => k < |s.schedulers| && s.schedulers[k].batch == [] && Selection(s.rows, batch)
    case Reopen(k, _) => k < |s.schedulers| && s.schedulers[k].batch != [] && !s.schedulers[k].pushing
    case Repush(k, _, _) => k < |s.schedulers| && s.schedulers[k].batch != [] && s.schedulers[k].pushing
  }

  function Apply(s: State, a: Step): State
    requires Enabled(s, a)
  {
    match a
    case Create(call, id, requested, o) => DoCreate(s, call, id, requested, o)
    case Push(call, o, future) => DoPush(s, call, o, future)
    case Launch =>
      s.(workers := s.workers[s.life.launched := Polling],
         life := s.life.(launched := s.life.launched + 1, wg := s.life.wg + 1))
    case FinishStart => s.(life := s.life.(started := true, collector := true, wg := s.life.wg + 1))
    case Cancel => s.(life := s.life.(cancelled := true))
    case CollectorQuits => s.(life := s.life.(collector := false, wg := s.life.wg - 1))
    case Quit(w) => s.(workers := s.workers[w := Stopped], life := s.life.(wg := s.life.wg - 1))
    case Look(w) => s.(workers := s.workers[w := Waiting])
    case Poll(w, o) => DoPoll(s, w, o)
    case Work(w, o, result) => DoWork(s, w, o, result)
    case Leave(w) =>
      s.(workers := s.workers[w := Polling], stats := Uncounted(s.stats))
    case Select(k, batch) => s.(schedulers := s.schedulers[k := Scheduler(batch, false)])
    case Reopen(k, o) => DoReopen(s, k, o)
    case Repush(k, o, future) => DoRepush(s, k, o, future)
  }

  /** `CreateJob` up to the row insert; the job is then in the caller's hands. */
  function DoCreate(s: State, call: nat, id: Id, requested: int, o: Outcome): State {
    var row := Row(Pending, 0, Budget(requested));
    s.(rows := if o.Applied() then s.rows[id := row] else s.rows,
       creating := if o.Done? then s.creating[call := Snapshot(id, row)] else s.creating,
       hist := s.hist.(issued := s.hist.issued + {id}))
  }

  /** `Enqueue`: a transaction that pushes on the left of the list and, for a
      job scheduled in the future, also adds it to the retry set. */
  function Enqueued(s: State, job: Job, o: Outcome, future: bool): State {
    if o.Applied()
    then s.(queue := [job] + s.queue, retry := if future then s.retry + {job.id} else s.retry)
    else s
  }

  function DoPush(s: State, call: nat, o: Outcome, future: bool): State
    requires call in s.creating
  {
    Enqueued(s, s.creating[call], o, future).(creating := s.creating - {call})
  }

  /** `Dequeue` pops on the right. Without a job, or on an error, the worker goes
      back to the top of its loop; a lost reply loses the job. */
  function DoPoll(s: State, w: nat, o: Outcome): State
    requires w < |s.workers|
  {
    if s.queue == [] || o.Refused? then s.(workers := s.workers[w := Polling])
    else
      var n := |s.queue| - 1;
      var job := s.queue[n];
      s.(queue := s.queue[..n],
         workers := s.workers[w := if o.Done? then Busy(Counting, job) else Polling],
         hist := s.hist.(popped := s.hist.popped + {job.id},
                         dequeued := if o.Done? then s.hist.dequeued + 1 else s.hist.dequeued))
  }

  /** One action of a worker that holds a job, component by component. */
  function DoWork(s: State, w: nat, o: Outcome, result: Result): State
    requires w < |s.workers| && s.workers[w].Busy?
  {
    var at, job := s.workers[w].at, s.workers[w].job;
    s.(workers := s.workers[w := NextWorker(at, job, o, result)],
       rows := if o.Applied() then WrittenRows(s.rows, at, job) else s.rows,
       processing := if o.Applied() then MarkedSet(s.processing, at, job) else s.processing,
       retry := if o.Applied() then RetrySet(s.retry, at, job, s.platform) else s.retry,
       stats := Counted(s.stats, at),
       hist := Recorded(s.hist, at, job, o, result))
  }

  /** Store errors are logged and ignored, except at `MarkProcessing`, where the
      job is dropped. A failed attempt is counted on the worker's own copy. */
  function NextWorker(at: Point, job: Job, o: Outcome, result: Result): Worker {
    match at
    case Counting => Busy(Marking, job)
    case Marking => if o.Done? then Busy(Starting, job) else Leaving
    case Starting => Busy(Handling, job)
    case Handling =>
      if result.Succeeds? then Busy(Completing, job)
      else Busy(Failing, job.(attempts := job.attempts + 1))
    case Completing => Busy(Clearing, job)
    case Clearing => Busy(TallyDone, job)
    case TallyDone => Leaving
    case Failing => Busy(Rescheduling, job)
    case Rescheduling => Busy(TallyFailed, job)
    case TallyFailed => Leaving
  }

  function WrittenRows(rows: map<Id, Row>, at: Point, job: Job): map<Id, Row> {
    match at
    case Starting => SetStatus(rows, job.id, Processing)
    case Completing => SetStatus(rows, job.id, Completed)
    case Failing => SetFailure(rows, job.id, FailureStatus(job))
    case _ => rows
  }

  function MarkedSet(processing: set<Id>, at: Point, job: Job): set<Id> {
    match at
    case Marking => processing + {job.id}
    case Clearing => processing - {job.id}
    case Rescheduling => processing - {job.id}
    case _ => processing
  }

  /** `MarkFailed` schedules a retry only for a positive delay. */
  function RetrySet(retry: set<Id>, at: Point, job: Job, platform: int): set<Id> {
    if at.Rescheduling? && job.attempts < job.budget && Backoff.PoolDelay(job.attempts, platform) > 0
    then retry + {job.id}
    else retry
  }

  function Counted(stats: Stats, at: Point): Stats {
    match at
    case Counting => stats.(active := stats.active + 1, processingJobs := stats.processingJobs + 1)
    case TallyDone => stats.(totalProcessed := stats.totalProcessed + 1)
    case TallyFailed => stats.(totalFailed := stats.totalFailed + 1)
    case _ => stats
  }

  /** `decrementActiveWorkers`, with its guards. */
  function Uncounted(stats: Stats): Stats {
    stats.(active := if stats.active > 0 then stats.active - 1 else stats.active,
           processingJobs := if stats.processingJobs > 0 then stats.processingJobs - 1 else stats.processingJobs)
  }

  /** Leaks: a mark whose reply was lost, and a clear that was refused. */
  function Recorded(hist: History, at: Point, job: Job, o: Outcome, result: Result): History {
    match at
    case Marking =>
      if o.Done? then hist
      else hist.(dropped := hist.dropped + 1,
                 leaked := if o.Applied() then hist.leaked + {job.id} else hist.leaked)
    case Handling =>
      if result.NoHandler? then hist else hist.(handled := hist.handled + multiset{job.id})
    case Clearing => if o.Applied() then hist else hist.(leaked := hist.leaked + {job.id})
    case Rescheduling => if o.Applied() then hist else hist.(leaked := hist.leaked + {job.id})
    case _ => hist
  }

  /** The scheduler sets the head's row back to pending; on an error it moves on. */
  function DoReopen(s: State, k: nat, o: Outcome): State
    requires k < |s.schedulers| && s.schedulers[k].batch != []
  {
    var batch := s.schedulers[k].batch;
    s.(rows := if o.Applied() then SetStatus(s.rows, batch[0].id, Pending) else s.rows,
       schedulers := s.schedulers[k := if o.Done? then Scheduler(batch, true)
                                       else Scheduler(batch[1..], false)])
  }

  function DoRepush(s: State, k: nat, o: Outcome, future: bool): State
    requires k < |s.schedulers| && s.schedulers[k].batch != []
  {
    var batch := s.schedulers[k].batch;
    Enqueued(s, batch[0], o, future).(
      schedulers := s.schedulers[k := Scheduler(batch[1..], false)])
  }

  /** `t` is reached from `s` by taking the steps of `run` in order. */
  predicate Reaches(s: State, run: seq<Step>, t: State)
    decreases |run|
  {
    if run == [] then s == t
    else Enabled(s, run[0]) && Reaches(Apply(s, run[0]), run[1..], t)
  }

  lemma Prepend(s: State, a: Step, run: seq<Step>, t: State)
    requires Enabled(s, a) && Reaches(Apply(s, a), run, t)
    ensures Reaches(s, [a] + run, t)
  {
    assert ([a] + run)[1..] == run;
  }

  lemma {:induction false} Concatenate(s: State, first: seq<Step>, m: State, second: seq<Step>, t: State)
    requires Reaches(s, first, m) && Reaches(m, second, t)
    ensures Reaches(s, first + second, t)
    decreases |first|
  {
    if first == [] {
      assert first + second == second;
    } else {
      assert (first + second)[1..] == first[1..] + second;
      Concatenate(Apply(s, first[0]), first[1..], m, second, t);
    }
  }

  /** Some run leads from `s` to `t`. */
  ghost predicate Leads(s: State, t: State) {
    exists run :: Reaches(s, run, t)
  }

  lemma LeadsNowhere(s: State)
    ensures Leads(s, s)
  {
    assert Reaches(s, [], s);
  }

  lemma LeadsOn(s: State, m: State, a: Step)
    requires Leads(s, m) && Enabled(m, a)
    ensures Leads(s, Apply(m, a))
  {
    var run :| Reaches(s, run, m);
    assert Reaches(Apply(m, a), [], Apply(m, a));
    Prepend(m, a, [], Apply(m, a));
    Concatenate(s, run, m, [a], Apply(m, a));
  }

  /** A cold start: any jobs table with sane budgets, a queue holding one
      snapshot each of some pending rows, nothing in anybody's hands. */
  predicate Init(s: State) {
    && (forall id :: id in s.rows ==> id in s.hist.issued && s.rows[id].attempts <= s.rows[id].budget)
    && (forall i :: 0 <= i < |s.queue| ==>
          && s.queue[i].id in s.rows
          && s.rows[s.queue[i].id] == Row(Pending, s.queue[i].attempts, s.queue[i].budget)
          && s.queue[i].attempts < s.queue[i].budget)
    && (forall i, j :: 0 <= i < j < |s.queue| ==> s.queue[i].id != s.queue[j].id)
    && s.processing == {}
    && s.creating == map[]
    && (forall w :: 0 <= w < |s.workers| ==> s.workers[w] == Unlaunched)
    && (forall k :: 0 <= k < |s.schedulers| ==> s.schedulers[k] == Scheduler([], false))
    && s.stats == Stats(0, 0, 0, 0)
    && s.life == Life(0, false, false, false, 0)
    && s.hist == History(s.hist.issued, {}, 0, 0, multiset{}, {})
  }
}
