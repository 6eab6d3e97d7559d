/** Whole calls of the worker pool and the retry scheduler as runs of the step machine,
    given how each of their store calls ends, and what these runs do to the stores. */
module JobDriver {
  import opened Basics
  import opened Outcomes
  import opened JobStore
  import opened JobProtocol

  /** Only the row `id` changes: it gets the status, if there is one to write, and
      `spent` more attempts. */
  predicate Rewritten(before: map<Id, Row>, after: map<Id, Row>, id: Id, status: Option<Status>, spent: nat) {
    if id !in before then after == before
    else
      var row := before[id];
      after == before[id := Row(if status.Some? then status.value else row.status, row.attempts + spent, row.budget)]
  }

  /** How each store call and the handler end while one job is processed. */
  datatype Script = Script(mark: Outcome, start: Outcome, result: Result, write: Outcome, clear: Outcome) {
    /** The status the row of a job that is processed ends with, if one is written. */
    function Verdict(job: Job): Option<Status> {
      if mark.Errored() then None
      else if write.Applied() then
        if result.Succeeds? then Some(Completed)
        else if job.attempts + 1 >= job.budget then Some(Failed)
        else Some(Retrying)
      else if start.Applied() then Some(Processing)
      else None
    }

    /** The attempts its row is charged. */
    function Spent(): nat {
      if mark.Done? && !result.Succeeds? && write.Applied() then 1 else 0
    }

    /** Everything processing a job does to the stores and the totals. */
    predicate Effect(job: Job, m: State, t: State) {
      var failed := mark.Done? && !result.Succeeds?;
      && Rewritten(m.rows, t.rows, job.id, Verdict(job), Spent())
      && t.processing == (if mark.Refused? then m.processing
                          else if mark.Done? && clear.Applied() then m.processing - {job.id}
                          else m.processing + {job.id})
      && t.retry == (if (&& failed && clear.Applied() && job.attempts + 1 < job.budget
                         && Backoff.PoolDelay(job.attempts + 1, m.platform) > 0)
                     then m.retry + {job.id} else m.retry)
      && t.stats.totalProcessed == m.stats.totalProcessed + (if mark.Done? && result.Succeeds? then 1 else 0)
      && t.stats.totalFailed == m.stats.totalFailed + if failed then 1 else 0
    }
  }

  /** How the two store calls of one turn of the scheduler's loop end, and whether
      the job is scheduled for the future. */
  datatype Turn = Turn(reopen: Outcome, push: Outcome, future: bool)

  /** The machine's rendering of `handleJobSuccess` and `handleJobFailure`. */
  ghost function Finished(m: State, w: nat, c: Script): (t: State)
    requires w < |m.workers| && m.workers[w].Busy? && (m.workers[w].at.Completing? || m.workers[w].at.Failing?)
    ensures t.workers == m.workers[w := Leaving]
  {
    var m1 := DoWork(m, w, c.write, c.result);
    var m2 := DoWork(m1, w, c.clear, c.result);
    DoWork(m2, w, Done, c.result)
  }

  /** The mark, the status write and the handler. */
  ghost function Begun(m: State, w: nat, c: Script): (t: State)
    requires w < |m.workers| && m.workers[w].Busy? && m.workers[w].at.Marking? && c.mark.Done?
    ensures w < |t.workers| && t.workers[w].Busy?
    ensures t.workers == m.workers[w := t.workers[w]]
    ensures if c.result.Succeeds? then t.workers[w].at.Completing? else t.workers[w].at.Failing?
  {
    var m1 := DoWork(m, w, c.mark, c.result);
    var m2 := DoWork(m1, w, c.start, c.result);
    DoWork(m2, w, Done, c.result)
  }

  /** The machine's rendering of `processJob`. */
  ghost function Processed(m: State, w: nat, c: Script): (t: State)
    requires w < |m.workers| && m.workers[w].Busy? && m.workers[w].at.Marking?
    ensures t.workers == m.workers[w := Leaving]
  {
    if c.mark.Errored() then DoWork(m, w, c.mark, c.result)
    else Finished(Begun(m, w, c), w, c)
  }

  /** The loop body for a popped job: count, process, leave. */
  ghost function Ran(m: State, w: nat, c: Script): (t: State)
    requires w < |m.workers| && m.workers[w].Busy? && m.workers[w].at.Counting?
    ensures t.workers == m.workers[w := Polling]
  {
    Apply(Processed(DoWork(m, w, Done, Succeeds), w, c), Leave(w))
  }

  /** The machine's rendering of one iteration of a worker's loop. */
  ghost function Iterated(s: State, w: nat, pop: Outcome, c: Script): (t: State)
    requires w < |s.workers| && s.workers[w].Polling?
    ensures |t.workers| == |s.workers|
  {
    if s.life.cancelled then Apply(s, Quit(w))
    else
      var m := DoPoll(Apply(s, Look(w)), w, pop);
      if s.queue == [] || pop.Errored() then m else Ran(m, w, c)
  }

  /** The machine's rendering of one turn of the scheduler's loop. */
  ghost function RequeuedOne(m: State, k: nat, turn: Turn): (t: State)
    requires k < |m.schedulers| && m.schedulers[k].batch != [] && !m.schedulers[k].pushing
    ensures t.schedulers == m.schedulers[k := Scheduler(m.schedulers[k].batch[1..], false)]
    ensures t.workers == m.workers && t.creating == m.creating
  {
    var m' := DoReopen(m, k, turn.reopen);
    if turn.reopen.Errored() then m' else DoRepush(m', k, turn.push, turn.future)
  }

  /** The machine's rendering of the scheduler's loop over the first `n` jobs. */
  ghost function Requeued(s: State, k: nat, batch: seq<Job>, turns: nat -> Turn, n: nat): (t: State)
    requires n <= |batch| && k < |s.schedulers| && s.schedulers[k] == Scheduler([], false)
    ensures t.schedulers == s.schedulers[k := Scheduler(batch[n..], false)]
    ensures t.workers == s.workers && t.creating == s.creating
  {
    if n == 0 then s.(schedulers := s.schedulers[k := Scheduler(batch, false)])
    else
      var m := Requeued(s, k, batch, turns, n - 1);
      assert batch[n - 1..][1..] == batch[n..];
      RequeuedOne(m, k, turns(n - 1))
  }

  // ----- What these renderings do to the stores -----

  /** A handled success: completed and cleared, as far as the writes are applied. */
  lemma SuccessMeans(m: State, w: nat, c: Script, job: Job)
    requires w < |m.workers| && m.workers[w] == Busy(Completing, job)
    ensures var t := Finished(m, w, c);
            && Rewritten(m.rows, t.rows, job.id, if c.write.Applied() then Some(Completed) else None, 0)
            && t.processing == (if c.clear.Applied() then m.processing - {job.id} else m.processing)
            && t.queue == m.queue && t.retry == m.retry
            && t.stats == m.stats.(totalProcessed := m.stats.totalProcessed + 1)
  {
  }

  /** A handled failure: failed once the budget is spent, retrying before that, with
      one more attempt; a retry is scheduled only for a positive delay. */
  lemma FailureMeans(m: State, w: nat, c: Script, job: Job)
    requires w < |m.workers| && m.workers[w] == Busy(Failing, job.(attempts := job.attempts + 1))
    ensures var t := Finished(m, w, c);
            && (c.write.Applied() ==>
                  Rewritten(m.rows, t.rows, job.id,
                            Some(if job.attempts + 1 >= job.budget then Failed else Retrying), 1))
            && (c.write.Refused? ==> t.rows == m.rows)
            && t.processing == (if c.clear.Applied() then m.processing - {job.id} else m.processing)
            && t.retry == (if (&& c.clear.Applied() && job.attempts + 1 < job.budget
                               && Backoff.PoolDelay(job.attempts + 1, m.platform) > 0)
                           then m.retry + {job.id} else m.retry)
            && t.queue == m.queue
            && t.stats == m.stats.(totalFailed := m.stats.totalFailed + 1)
  {
  }

  /** Between the mark and the final write: only the row's status moves. */
  lemma BegunMeans(m: State, w: nat, c: Script, job: Job)
    requires w < |m.workers| && m.workers[w] == Busy(Marking, job) && c.mark.Done?
    ensures var t := Begun(m, w, c);
            && t.workers[w].job == (if c.result.Succeeds? then job else job.(attempts := job.attempts + 1))
            && Rewritten(m.rows, t.rows, job.id, if c.start.Applied() then Some(Processing) else None, 0)
            && t.processing == m.processing + {job.id}
            && t.retry == m.retry && t.queue == m.queue && t.stats == m.stats && t.platform == m.platform
  {
  }

  /** Failing to mark drops the job and leaves the mark, if it was applied. */
  lemma DroppedMeans(m: State, w: nat, c: Script, job: Job)
    requires w < |m.workers| && m.workers[w] == Busy(Marking, job) && c.mark.Errored()
    ensures Processed(m, w, c) ==
            m.(workers := m.workers[w := Leaving],
               processing := if c.mark.Applied() then m.processing + {job.id} else m.processing,
               hist := Processed(m, w, c).hist)
  {
  }

  lemma SucceededMeans(m: State, w: nat, c: Script, job: Job)
    requires w < |m.workers| && m.workers[w] == Busy(Marking, job) && c.mark.Done? && c.result.Succeeds?
    ensures var t := Finished(Begun(m, w, c), w, c);
            && c.Effect(job, m, t) && t.queue == m.queue
            && t.stats.active == m.stats.active && t.stats.processingJobs == m.stats.processingJobs
  {
    BegunMeans(m, w, c, job);
    SuccessMeans(Begun(m, w, c), w, c, job);
  }

  lemma FailedMeans(m: State, w: nat, c: Script, job: Job)
    requires w < |m.workers| && m.workers[w] == Busy(Marking, job) && c.mark.Done? && !c.result.Succeeds?
    ensures var t := Finished(Begun(m, w, c), w, c);
            && c.Effect(job, m, t) && t.queue == m.queue
            && t.stats.active == m.stats.active && t.stats.processingJobs == m.stats.processingJobs
  {
    BegunMeans(m, w, c, job);
    FailureMeans(Begun(m, w, c), w, c, job);
  }

  lemma ProcessedMeans(m: State, w: nat, c: Script, job: Job)
    requires w < |m.workers| && m.workers[w] == Busy(Marking, job)
    ensures var t := Processed(m, w, c);
            && c.Effect(job, m, t) && t.queue == m.queue
            && t.stats.active == m.stats.active && t.stats.processingJobs == m.stats.processingJobs
  {
    if c.mark.Errored() {
      DroppedMeans(m, w, c, job);
    } else if c.result.Succeeds? {
      SucceededMeans(m, w, c, job);
    } else {
      FailedMeans(m, w, c, job);
    }
  }

  lemma RanMeans(m: State, w: nat, c: Script, job: Job)
    requires w < |m.workers| && m.workers[w] == Busy(Counting, job)
    ensures var t := Ran(m, w, c);
            && c.Effect(job, m, t) && t.queue == m.queue
            && (m.stats.active >= 0 ==> t.stats.active == m.stats.active)
            && (m.stats.processingJobs >= 0 ==> t.stats.processingJobs == m.stats.processingJobs)
  {
    ProcessedMeans(DoWork(m, w, Done, Succeeds), w, c, job);
  }

  /** What one iteration of a worker's loop does. Without a job it changes nothing
      but, on a lost reply, the list; otherwise the oldest job is processed and the
      gauges end where they began. */
  predicate Iteration(s: State, t: State, pop: Outcome, c: Script) {
    var n := |s.queue| - 1;
    if s.life.cancelled || s.queue == [] || pop.Refused? then
      t.rows == s.rows && t.queue == s.queue && t.processing == s.processing && t.retry == s.retry && t.stats == s.stats
    else if pop.Errored() then
      && t.rows == s.rows && t.queue == s.queue[..n]
      && t.processing == s.processing && t.retry == s.retry && t.stats == s.stats
    else
      && t.queue == s.queue[..n] && c.Effect(s.queue[n], s, t)
      && (s.stats.active >= 0 && s.stats.processingJobs >= 0 ==>
            t.stats.active == s.stats.active && t.stats.processingJobs == s.stats.processingJobs)
  }

  lemma IteratedMeans(s: State, w: nat, pop: Outcome, c: Script)
    requires w < |s.workers| && s.workers[w].Polling?
    ensures Iteration(s, Iterated(s, w, pop, c), pop, c)
  {
    if !s.life.cancelled && s.queue != [] && pop.Done? {
      RanMeans(DoPoll(Apply(s, Look(w)), w, pop), w, c, s.queue[|s.queue| - 1]);
    }
  }

  /** The head's row goes back to pending, and only then is its copy pushed. */
  lemma RequeuedOneMeans(m: State, k: nat, turn: Turn)
    requires k < |m.schedulers| && m.schedulers[k].batch != [] && !m.schedulers[k].pushing
    ensures var t, job := RequeuedOne(m, k, turn), m.schedulers[k].batch[0];
            && Rewritten(m.rows, t.rows, job.id, if turn.reopen.Applied() then Some(Pending) else None, 0)
            && t.queue == (if turn.reopen.Done? && turn.push.Applied() then [job] + m.queue else m.queue)
            && t.retry == (if turn.reopen.Done? && turn.push.Applied() && turn.future then m.retry + {job.id}
                           else m.retry)
            && t.processing == m.processing && t.stats == m.stats
  {
  }

  predicate Descending(xs: seq<nat>) {
    forall i, j :: 0 <= i < j < |xs| ==> xs[i] > xs[j]
  }

  /** `pushed` are the positions below `n` whose jobs reach the list. */
  ghost predicate PushedUpTo(pushed: seq<nat>, turns: nat -> Turn, n: nat) {
    Descending(pushed) && forall i: nat :: i in pushed <==> i < n && turns(i).reopen.Done? && turns(i).push.Applied()
  }

  /** The jobs at the given positions. */
  function Picked(jobs: seq<Job>, positions: seq<nat>): seq<Job>
    requires forall i :: i in positions ==> i < |jobs|
  {
    seq(|positions|, i requires 0 <= i < |positions| => assert positions[i] in positions; jobs[positions[i]])
  }

  /** The first `n` jobs have had their turn: each row whose reopening was applied is
      pending, the others are as they were, and no row lost an attempt. */
  ghost predicate ReopenedUpTo(rows: map<Id, Row>, rows': map<Id, Row>, jobs: seq<Job>, turns: nat -> Turn, n: nat)
    requires n <= |jobs|
  {
    && rows'.Keys == rows.Keys
    && (forall i :: 0 <= i < n ==>
          && jobs[i].id in rows
          && rows'[jobs[i].id] == Row(if turns(i).reopen.Applied() then Pending else Failed,
                                      jobs[i].attempts, jobs[i].budget))
    && (forall id :: id in rows && (forall i :: 0 <= i < n ==> jobs[i].id != id) ==> rows'[id] == rows[id])
  }

  lemma {:induction false} RequeuedRows(s: State, k: nat, jobs: seq<Job>, turns: nat -> Turn, n: nat)
    requires n <= |jobs| && k < |s.schedulers| && s.schedulers[k] == Scheduler([], false) && Selection(s.rows, jobs)
    ensures ReopenedUpTo(s.rows, Requeued(s, k, jobs, turns, n).rows, jobs, turns, n)
  {
    if n > 0 {
      var m := Requeued(s, k, jobs, turns, n - 1);
      RequeuedRows(s, k, jobs, turns, n - 1);
      RequeuedOneMeans(m, k, turns(n - 1));
      assert m.schedulers[k].batch[0] == jobs[n - 1];
      assert m.rows[jobs[n - 1].id] == s.rows[jobs[n - 1].id];
    }
  }

  /** The ids of those scheduled for the future. */
  function Future(jobs: seq<Job>, positions: seq<nat>, turns: nat -> Turn): set<Id>
    requires forall i :: i in positions ==> i < |jobs|
  {
    set i | i in positions && turns(i).future :: jobs[i].id
  }

  /** The positions below `n` whose jobs reach the list, the last one in front. */
  function Pushed(turns: nat -> Turn, n: nat): (pushed: seq<nat>)
    ensures forall i :: i in pushed ==> i < n
  {
    if n == 0 then []
    else if turns(n - 1).reopen.Done? && turns(n - 1).push.Applied() then [n - 1] + Pushed(turns, n - 1)
    else Pushed(turns, n - 1)
  }

  lemma {:induction false} PushedExactly(turns: nat -> Turn, n: nat)
    ensures PushedUpTo(Pushed(turns, n), turns, n)
  {
    if n > 0 {
      PushedExactly(turns, n - 1);
      var before := Pushed(turns, n - 1);
      assert forall i :: 0 <= i < |before| ==> before[i] in before;
      assert forall i: nat :: i in [n - 1] + before <==> i == n - 1 || i in before;
    }
  }

  lemma {:induction false} RequeuedQueue(s: State, k: nat, jobs: seq<Job>, turns: nat -> Turn, n: nat)
    requires n <= |jobs| && k < |s.schedulers| && s.schedulers[k] == Scheduler([], false)
    ensures var t := Requeued(s, k, jobs, turns, n);
            && t.queue == Picked(jobs, Pushed(turns, n)) + s.queue
            && t.processing == s.processing && t.stats == s.stats
  {
    if n > 0 {
      var m := Requeued(s, k, jobs, turns, n - 1);
      RequeuedQueue(s, k, jobs, turns, n - 1);
      RequeuedOneMeans(m, k, turns(n - 1));
      assert m.schedulers[k].batch[0] == jobs[n - 1];
      QueueMore(jobs, turns, n, s.queue, m.queue, Requeued(s, k, jobs, turns, n).queue);
    }
  }

  lemma QueueMore(jobs: seq<Job>, turns: nat -> Turn, n: nat, base: seq<Job>, before: seq<Job>, after: seq<Job>)
    requires 0 < n <= |jobs| && before == Picked(jobs, Pushed(turns, n - 1)) + base
    requires after == if turns(n - 1).reopen.Done? && turns(n - 1).push.Applied() then [jobs[n - 1]] + before
                      else before
    ensures after == Picked(jobs, Pushed(turns, n)) + base
  {
    PickedMore(jobs, n - 1, Pushed(turns, n - 1));
  }

  lemma {:induction false} RequeuedRetrySet(s: State, k: nat, jobs: seq<Job>, turns: nat -> Turn, n: nat)
    requires n <= |jobs| && k < |s.schedulers| && s.schedulers[k] == Scheduler([], false)
    ensures Requeued(s, k, jobs, turns, n).retry == s.retry + Future(jobs, Pushed(turns, n), turns)
  {
    if n > 0 {
      var m := Requeued(s, k, jobs, turns, n - 1);
      RequeuedRetrySet(s, k, jobs, turns, n - 1);
      RequeuedOneMeans(m, k, turns(n - 1));
      assert m.schedulers[k].batch[0] == jobs[n - 1];
      RetrySetMore(jobs, turns, n, s.retry, m.retry, Requeued(s, k, jobs, turns, n).retry);
    }
  }

  lemma RetrySetMore(jobs: seq<Job>, turns: nat -> Turn, n: nat, base: set<Id>, before: set<Id>, after: set<Id>)
    requires 0 < n <= |jobs| && before == base + Future(jobs, Pushed(turns, n - 1), turns)
    requires var turn := turns(n - 1);
             after == if turn.reopen.Done? && turn.push.Applied() && turn.future then before + {jobs[n - 1].id}
                      else before
    ensures after == base + Future(jobs, Pushed(turns, n), turns)
  {
    FutureMore(jobs, n - 1, Pushed(turns, n - 1), turns);
  }

  lemma FutureMore(jobs: seq<Job>, n: nat, positions: seq<nat>, turns: nat -> Turn)
    requires n < |jobs| && forall i :: i in positions ==> i < |jobs|
    ensures Future(jobs, [n] + positions, turns) ==
            Future(jobs, positions, turns) + if turns(n).future then {jobs[n].id} else {}
  {
    assert forall i: nat :: i in [n] + positions <==> i == n || i in positions;
  }

  lemma PickedMore(jobs: seq<Job>, n: nat, positions: seq<nat>)
    requires n < |jobs| && forall i :: i in positions ==> i < |jobs|
    ensures Picked(jobs, [n] + positions) == [jobs[n]] + Picked(jobs, positions)
  {
    assert forall i :: 0 < i <= |positions| ==> ([n] + positions)[i] == positions[i - 1];
  }
}
