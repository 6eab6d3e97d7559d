/** The code that drives the job lifecycle: the repository, the Redis queue, the
    job manager, the worker pool and the retry scheduler, as objects over mutable
    stores. Each driver is shown to be a run of the step machine, so what holds
    over all runs holds of it. The outcome of each store call is an argument. */
module JobService {
  import opened Basics
  import opened Outcomes
  import opened JobStore
  import opened JobProtocol
  import opened JobDriver

  class JobRepository {
    var rows: map<Id, Row>

    constructor ()
      ensures rows == map[]
    {
      rows := map[];
    }

    method Create(id: Id, row: Row, o: Outcome) returns (err: bool)
      modifies this
      ensures rows == if o.Applied() then old(rows)[id := row] else old(rows)
      ensures err == o.Errored()
    {
      if o.Applied() {
        rows := rows[id := row];
      }
      err := o.Errored();
    }

    method UpdateStatus(id: Id, status: Status, o: Outcome) returns (err: bool)
      modifies this
      ensures rows == if o.Applied() then SetStatus(old(rows), id, status) else old(rows)
      ensures Rewritten(old(rows), rows, id, if o.Applied() then Some(status) else None, 0)
      ensures err == o.Errored()
    {
      if o.Applied() && id in rows {
        var row := rows[id];
        rows := rows[id := Row(status, row.attempts, row.budget)];
      }
      err := o.Errored();
    }

    /** `UpdateJobToFailed` and `UpdateJobToRetrying`. */
    method UpdateJobToFailure(id: Id, status: Status, o: Outcome) returns (err: bool)
      modifies this
      ensures rows == if o.Applied() then SetFailure(old(rows), id, status) else old(rows)
      ensures Rewritten(old(rows), rows, id, if o.Applied() then Some(status) else None, if o.Applied() then 1 else 0)
      ensures err == o.Errored()
    {
      if o.Applied() && id in rows {
        var row := rows[id];
        rows := rows[id := Row(status, row.attempts + 1, row.budget)];
      }
      err := o.Errored();
    }

    /** `GetRetryableJobs`: snapshots of the due rows, the first `limit` of them in
        order of falling priority, then of age. `failing` says that the query errors. */
    method GetRetryableJobs(c: Columns, before: int, limit: nat, failing: bool) returns (jobs: seq<Job>, err: bool)
      ensures err == failing && (err ==> jobs == []) && |jobs| <= limit
      ensures forall i :: 0 <= i < |jobs| ==>
                && Due(rows, c, before, jobs[i].id) && c.updated(jobs[i].id) < before
                && rows[jobs[i].id] == Row(Failed, jobs[i].attempts, jobs[i].budget)
                && jobs[i].attempts < jobs[i].budget
      ensures forall i, j :: 0 <= i < j < |jobs| ==>
                var a, b := jobs[i].id, jobs[j].id;
                && a != b && c.priority(a) >= c.priority(b)
                && (c.priority(a) == c.priority(b) ==> c.updated(a) <= c.updated(b))
      ensures !err ==> forall id :: (&& id in rows && rows[id].status.Failed? && rows[id].attempts < rows[id].budget
                                     && c.updated(id) < before) ==>
                || Job(id, rows[id].attempts, rows[id].budget) in jobs
                || (|jobs| == limit && forall i :: 0 <= i < |jobs| ==> c.Precedes(jobs[i].id, id))
    {
      jobs, err := [], failing;
      if failing {
        return;
      }
      var rest := set id | id in rows && Due(rows, c, before, id);
      while rest != {} && |jobs| < limit
        invariant |jobs| <= limit
        invariant forall id :: id in rest ==> Due(rows, c, before, id)
        invariant forall i :: 0 <= i < |jobs| ==>
                    && Due(rows, c, before, jobs[i].id)
                    && jobs[i] == Snapshot(jobs[i].id, rows[jobs[i].id])
                    && jobs[i].id !in rest
                    && forall id :: id in rest ==> c.Precedes(jobs[i].id, id)
        invariant forall i, j :: 0 <= i < j < |jobs| ==>
                    jobs[i].id != jobs[j].id && c.Precedes(jobs[i].id, jobs[j].id)
        invariant forall id :: Due(rows, c, before, id) ==> id in rest || Snapshot(id, rows[id]) in jobs
        decreases rest
      {
        var id := Foremost(c, rest);
        rest := rest - {id};
        jobs := jobs + [Snapshot(id, rows[id])];
      }
    }
  }

  /** The columns the retry selection filters and orders by. */
  datatype Columns = Columns(priority: Id -> int, updated: Id -> int) {
    /** `ORDER BY priority DESC, updated_at ASC`. */
    predicate Precedes(a: Id, b: Id) {
      priority(a) > priority(b) || (priority(a) == priority(b) && updated(a) <= updated(b))
    }
  }

  /** Failed, with attempts left, and not written since the cut-off. */
  predicate Due(rows: map<Id, Row>, c: Columns, before: int, id: Id) {
    id in rows && Reopenable(rows[id]) && c.updated(id) < before
  }

  method Foremost(c: Columns, ids: set<Id>) returns (first: Id)
    requires ids != {}
    ensures first in ids && forall id :: id in ids ==> c.Precedes(first, id)
  {
    first :| first in ids;
    var rest := ids - {first};
    while rest != {}
      invariant first in ids && rest <= ids
      invariant forall id :: id in ids ==> id in rest || c.Precedes(first, id)
      decreases rest
    {
      var id :| id in rest;
      rest := rest - {id};
      if !c.Precedes(first, id) {
        first := id;
      }
    }
  }

  /** The list `{jobs}:queue` and the sorted sets beside it; scores are left out. */
  class RedisQueue {
    var list: seq<Job>
    var processing: set<Id>
    var retry: set<Id>

    constructor ()
      ensures list == [] && processing == {} && retry == {}
    {
      list, processing, retry := [], {}, {};
    }

    method Enqueue(job: Job, o: Outcome, future: bool) returns (err: bool)
      modifies `list, `retry
      ensures list == if o.Applied() then [job] + old(list) else old(list)
      ensures retry == if o.Applied() && future then old(retry) + {job.id} else old(retry)
      ensures err == o.Errored()
    {
      if o.Applied() {
        list := [job] + list;
        if future {
          retry := retry + {job.id};
        }
      }
      err := o.Errored();
    }

    /** First in, first out; nothing on an empty list or an error. */
    method Dequeue(o: Outcome) returns (jobs: seq<Job>)
      modifies `list
      ensures old(list) == [] || o.Refused? ==> jobs == [] && list == old(list)
      ensures old(list) != [] && o.Applied() ==> list == old(list)[..|old(list)| - 1]
      ensures old(list) != [] && o.Applied() ==> jobs == if o.Done? then [old(list)[|old(list)| - 1]] else []
    {
      jobs := [];
      if list != [] && o.Applied() {
        if o.Done? {
          jobs := [list[|list| - 1]];
        }
        list := list[..|list| - 1];
      }
    }

    method MarkProcessing(id: Id, o: Outcome) returns (err: bool)
      modifies `processing
      ensures processing == if o.Applied() then old(processing) + {id} else old(processing)
      ensures err == o.Errored()
    {
      if o.Applied() {
        processing := processing + {id};
      }
      err := o.Errored();
    }

    method MarkCompleted(id: Id, o: Outcome) returns (err: bool)
      modifies `processing
      ensures processing == if o.Applied() then old(processing) - {id} else old(processing)
      ensures err == o.Errored()
    {
      if o.Applied() {
        processing := processing - {id};
      }
      err := o.Errored();
    }

    method MarkFailed(id: Id, delay: int, o: Outcome) returns (err: bool)
      modifies `processing, `retry
      ensures processing == if o.Applied() then old(processing) - {id} else old(processing)
      ensures retry == if o.Applied() && delay > 0 then old(retry) + {id} else old(retry)
      ensures err == o.Errored()
    {
      if o.Applied() {
        processing := processing - {id};
        if delay > 0 {
          retry := retry + {id};
        }
      }
      err := o.Errored();
    }
  }

  datatype Created = Accepted(job: Job) | Rejected

  class Service {
    const repo: JobRepository
    const queue: RedisQueue
    const platform: int
    var stats: Stats

    constructor (repo: JobRepository, queue: RedisQueue, platform: int)
      ensures this.repo == repo && this.queue == queue && this.platform == platform
      ensures stats == Stats(0, 0, 0, 0)
    {
      this.repo, this.queue, this.platform := repo, queue, platform;
      stats := Stats(0, 0, 0, 0);
    }

    /** The stores and counters are those of machine state `s`. */
    ghost predicate Shows(s: State)
      reads this, repo, queue
    {
      && repo.rows == s.rows
      && queue.list == s.queue && queue.processing == s.processing && queue.retry == s.retry
      && stats == s.stats && platform == s.platform
    }

    /** `CreateJob`: refuse an empty type, default the budget, insert the row,
        push the snapshot. Any store error is returned, applied or not. */
    method CreateJob(kind: string, id: Id, requested: int, insert: Outcome, push: Outcome, future: bool,
                     ghost s: State, ghost call: nat)
      returns (r: Created, ghost t: State)
      requires Shows(s) && call !in s.creating && id !in s.hist.issued
      modifies repo, queue
      ensures Shows(t) && Leads(s, t)
      ensures t.creating == s.creating && t.workers == s.workers && t.schedulers == s.schedulers
      ensures kind == "" ==> r.Rejected? && t == s
      ensures r.Accepted? <==> kind != "" && insert.Done? && push.Done?
      ensures r.Accepted? ==> r.job == Job(id, 0, Budget(requested))
      ensures kind != "" ==>
                && repo.rows == (if insert.Applied() then old(repo.rows)[id := Row(Pending, 0, Budget(requested))]
                                 else old(repo.rows))
                && queue.list == (if insert.Done? && push.Applied()
                                  then [Job(id, 0, Budget(requested))] + old(queue.list) else old(queue.list))
                && queue.retry == (if insert.Done? && push.Applied() && future then old(queue.retry) + {id}
                                   else old(queue.retry))
      ensures queue.processing == old(queue.processing)
    {
      t := s;
      LeadsNowhere(s);
      if kind == "" {
        return Rejected, t;
      }
      var budget := requested;
      if budget <= 0 {
        budget := 3;
      }
      var job := Job(id, 0, budget);
      var err := repo.Create(id, Row(Pending, 0, budget), insert);
      var a := Create(call, id, requested, insert);
      LeadsOn(s, t, a);
      t := Apply(t, a);
      if err {
        return Rejected, t;
      }
      err := queue.Enqueue(job, push, future);
      var b := Push(call, push, future);
      LeadsOn(s, t, b);
      t := Apply(t, b);
      assert t.creating == s.creating;
      r := if err then Rejected else Accepted(job);
    }

    /** One iteration of `runWorker`'s loop: return if cancelled; else poll, and
        process what was popped between the two counter updates. */
    method RunWorkerOnce(cancelled: bool, pop: Outcome, script: Script, ghost s: State, ghost w: nat)
      returns (stop: bool, ghost t: State)
      requires Shows(s) && w < |s.workers| && s.workers[w].Polling? && s.life.cancelled == cancelled
      modifies this, repo, queue
      ensures Shows(t) && Leads(s, t)
      ensures t == Iterated(s, w, pop, script)
      ensures Iteration(s, t, pop, script)
      ensures stop == cancelled && (stop <==> t.workers[w].Stopped?)
    {
      stop := cancelled;
      LeadsNowhere(s);
      if cancelled {
        LeadsOn(s, s, Quit(w));
        t := Apply(s, Quit(w));
        IteratedMeans(s, w, pop, script);
        return;
      }
      LeadsOn(s, s, Look(w));
      t := Apply(s, Look(w));
      var jobs := queue.Dequeue(pop);
      LeadsOn(s, t, Poll(w, pop));
      t := Apply(t, Poll(w, pop));
      if jobs == [] {
        IteratedMeans(s, w, pop, script);
        return;
      }
      t := RunJob(jobs[0], script, s, t, w);
      IteratedMeans(s, w, pop, script);
    }

    /** Between the two counter updates. */
    method RunJob(job: Job, script: Script, ghost s: State, ghost m: State, ghost w: nat) returns (ghost t: State)
      requires Shows(m) && Leads(s, m)
      requires w < |m.workers| && m.workers[w] == Busy(Counting, job)
      modifies this, repo, queue
      ensures Shows(t) && Leads(s, t)
      ensures t == Ran(m, w, script)
    {
      IncrementActiveWorkers();
      t := Follow(s, m, w, Done, Succeeds);
      t := ProcessJob(job, script, s, t, w);
      DecrementActiveWorkers();
      LeadsOn(s, t, Leave(w));
      t := Apply(t, Leave(w));
    }

    method IncrementActiveWorkers()
      modifies `stats
      ensures stats == old(stats).(active := old(stats).active + 1, processingJobs := old(stats).processingJobs + 1)
    {
      stats := stats.(active := stats.active + 1, processingJobs := stats.processingJobs + 1);
    }

    method DecrementActiveWorkers()
      modifies `stats
      ensures stats == Uncounted(old(stats))
      ensures stats.active == old(stats).active - (if old(stats).active > 0 then 1 else 0)
      ensures stats.processingJobs == old(stats).processingJobs - (if old(stats).processingJobs > 0 then 1 else 0)
      ensures stats.totalProcessed == old(stats).totalProcessed && stats.totalFailed == old(stats).totalFailed
    {
      if stats.active > 0 {
        stats := stats.(active := stats.active - 1);
      }
      if stats.processingJobs > 0 {
        stats := stats.(processingJobs := stats.processingJobs - 1);
      }
    }

    /** `processJob`, going on from `m`. */
    method ProcessJob(job: Job, script: Script, ghost s: State, ghost m: State, ghost w: nat)
      returns (ghost t: State)
      requires Shows(m) && Leads(s, m)
      requires w < |m.workers| && m.workers[w] == Busy(Marking, job)
      modifies this, repo, queue
      ensures Shows(t) && Leads(s, t)
      ensures t == Processed(m, w, script)
      ensures script.Effect(job, m, t) && t.queue == m.queue
      ensures Rewritten(old(repo.rows), repo.rows, job.id, script.Verdict(job), script.Spent())
    {
      var err := queue.MarkProcessing(job.id, script.mark);
      t := Follow(s, m, w, script.mark, script.result);
      if err {
        ProcessedMeans(m, w, script, job);
        return;
      }
      err := repo.UpdateStatus(job.id, Processing, script.start);
      t := Follow(s, t, w, script.start, script.result);
      t := Follow(s, t, w, Done, script.result);
      if script.result.Succeeds? {
        t := HandleJobSuccess(job, script, s, t, w);
      } else {
        t := HandleJobFailure(job, script, s, t, w);
      }
      ProcessedMeans(m, w, script, job);
    }

    method HandleJobSuccess(job: Job, script: Script, ghost s: State, ghost m: State,
                            ghost w: nat)
      returns (ghost t: State)
      requires Shows(m) && Leads(s, m) && w < |m.workers|
      requires m.workers[w] == Busy(Completing, job)
      modifies this, repo, queue
      ensures Shows(t) && Leads(s, t)
      ensures t == Finished(m, w, script)
      ensures Rewritten(old(repo.rows), repo.rows, job.id, if script.write.Applied() then Some(Completed) else None, 0)
      ensures queue.processing == if script.clear.Applied() then old(queue.processing) - {job.id}
                                  else old(queue.processing)
      ensures queue.list == old(queue.list) && queue.retry == old(queue.retry)
      ensures stats == old(stats).(totalProcessed := old(stats).totalProcessed + 1)
    {
      var err := repo.UpdateStatus(job.id, Completed, script.write);
      t := Follow(s, m, w, script.write, script.result);
      err := queue.MarkCompleted(job.id, script.clear);
      t := Follow(s, t, w, script.clear, script.result);
      stats := stats.(totalProcessed := stats.totalProcessed + 1);
      t := Follow(s, t, w, Done, script.result);
      SuccessMeans(m, w, script, job);
    }

    method HandleJobFailure(job: Job, script: Script, ghost s: State, ghost m: State,
                            ghost w: nat)
      returns (ghost t: State)
      requires Shows(m) && Leads(s, m) && w < |m.workers|
      requires m.workers[w] == Busy(Failing, job.(attempts := job.attempts + 1))
      modifies this, repo, queue
      ensures Shows(t) && Leads(s, t)
      ensures t == Finished(m, w, script)
      ensures script.write.Applied() ==>
                Rewritten(old(repo.rows), repo.rows, job.id,
                          Some(if job.attempts + 1 >= job.budget then Failed else Retrying), 1)
      ensures script.write.Refused? ==> repo.rows == old(repo.rows)
      ensures queue.processing == if script.clear.Applied() then old(queue.processing) - {job.id}
                                  else old(queue.processing)
      ensures queue.retry == if (&& script.clear.Applied() && job.attempts + 1 < job.budget
                                 && Backoff.PoolDelay(job.attempts + 1, platform) > 0)
                             then old(queue.retry) + {job.id} else old(queue.retry)
      ensures queue.list == old(queue.list)
      ensures stats == old(stats).(totalFailed := old(stats).totalFailed + 1)
    {
      var attempts := job.attempts + 1;
      var status, delay := Failed, 0;
      if attempts < job.budget {
        status, delay := Retrying, Backoff.PoolDelay(attempts, platform);
      }
      var err := repo.UpdateJobToFailure(job.id, status, script.write);
      t := Follow(s, m, w, script.write, script.result);
      err := queue.MarkFailed(job.id, delay, script.clear);
      t := Follow(s, t, w, script.clear, script.result);
      stats := stats.(totalFailed := stats.totalFailed + 1);
      t := Follow(s, t, w, Done, script.result);
      FailureMeans(m, w, script, job);
    }

    /** The machine step that matches the worker's next action. */
    static ghost method Follow(s: State, m: State, w: nat, o: Outcome, result: Result)
      returns (t: State)
      requires Leads(s, m) && w < |m.workers| && m.workers[w].Busy?
      ensures t == DoWork(m, w, o, result) && Leads(s, t)
    {
      var a := Work(w, o, result);
      LeadsOn(s, m, a);
      t := Apply(m, a);
    }

    /** `processRetryableJobs`: select what has been failed for five minutes, then
        for each job set its row back to pending and push it, moving on at any
        error. A failing selection ends the call with nothing changed. `pushed` are
        the positions of the jobs that reach the list, the last one in front. */
    method ProcessRetryableJobs(c: Columns, now: int, failing: bool, turns: nat -> Turn, ghost s: State, ghost k: nat)
      returns (jobs: seq<Job>, ghost pushed: seq<nat>, ghost t: State)
      requires Shows(s) && k < |s.schedulers| && s.schedulers[k] == Scheduler([], false)
      modifies repo, queue
      ensures Shows(t) && Leads(s, t)
      ensures failing ==> jobs == [] && t == s
      ensures Selection(old(repo.rows), jobs)
      ensures forall i :: 0 <= i < |jobs| ==> Due(old(repo.rows), c, now - 300 * SECOND, jobs[i].id)
      ensures !failing ==> forall id :: Due(old(repo.rows), c, now - 300 * SECOND, id) ==>
                || Snapshot(id, old(repo.rows)[id]) in jobs
                || (|jobs| == 100 && forall i :: 0 <= i < |jobs| ==> c.Precedes(jobs[i].id, id))
      ensures !failing ==> t == Requeued(s, k, jobs, turns, |jobs|)
      ensures PushedUpTo(pushed, turns, |jobs|) && queue.list == Picked(jobs, pushed) + old(queue.list)
      ensures queue.retry == old(queue.retry) + Future(jobs, pushed, turns)
      ensures ReopenedUpTo(old(repo.rows), repo.rows, jobs, turns, |jobs|)
      ensures queue.processing == old(queue.processing)
    {
      LeadsNowhere(s);
      t, pushed := s, [];
      var err;
      jobs, err := repo.GetRetryableJobs(c, now - 300 * SECOND, 100, failing);
      if err {
        return;
      }
      var a := Select(k, jobs);
      LeadsOn(s, s, a);
      t := Apply(s, a);
      for n := 0 to |jobs|
        invariant Shows(t) && Leads(s, t)
        invariant t == Requeued(s, k, jobs, turns, n)
      {
        assert jobs[n..][0] == jobs[n];
        t := RetryJob(jobs[n], turns(n), s, t, k);
      }
      pushed := Pushed(turns, |jobs|);
      PushedExactly(turns, |jobs|);
      RequeuedQueue(s, k, jobs, turns, |jobs|);
      RequeuedRetrySet(s, k, jobs, turns, |jobs|);
      RequeuedRows(s, k, jobs, turns, |jobs|);
    }

    /** One turn of the loop: reopen the row, push the job only if that succeeded. */
    method RetryJob(job: Job, turn: Turn, ghost s: State, ghost m: State, ghost k: nat) returns (ghost t: State)
      requires Shows(m) && Leads(s, m)
      requires k < |m.schedulers| && !m.schedulers[k].pushing
      requires m.schedulers[k].batch != [] && m.schedulers[k].batch[0] == job
      modifies repo, queue
      ensures Shows(t) && Leads(s, t)
      ensures t == RequeuedOne(m, k, turn)
      ensures Rewritten(old(repo.rows), repo.rows, job.id, if turn.reopen.Applied() then Some(Pending) else None, 0)
      ensures queue.list == if turn.reopen.Done? && turn.push.Applied() then [job] + old(queue.list)
                            else old(queue.list)
      ensures queue.retry == if turn.reopen.Done? && turn.push.Applied() && turn.future
                             then old(queue.retry) + {job.id} else old(queue.retry)
      ensures queue.processing == old(queue.processing)
    {
      var err := repo.UpdateStatus(job.id, Pending, turn.reopen);
      var a := Reopen(k, turn.reopen);
      LeadsOn(s, m, a);
      t := Apply(m, a);
      if !err {
        err := queue.Enqueue(job, turn.push, turn.future);
        var b := Repush(k, turn.push, turn.future);
        LeadsOn(s, t, b);
        t := Apply(t, b);
      }
      RequeuedOneMeans(m, k, turn);
    }
  }
}
