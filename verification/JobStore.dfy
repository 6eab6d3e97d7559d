/** The stores behind the job lifecycle: the jobs table, the Redis list and its
    two sorted sets, and what each call does to them. */
module JobStore {

  type Id = nat

  datatype Status = Pending | Processing | Completed | Failed | Retrying

  /** The columns of a jobs row that the lifecycle reads and writes.
      `budget` is the `max_attempts` column. */
  datatype Row = Row(status: Status, attempts: nat, budget: nat)

  /** The copy of a job that travels through the queue as JSON and into a
      worker's or the scheduler's hands. */
  datatype Job = Job(id: Id, attempts: nat, budget: nat)

  /** The rows `GetRetryableJobs` may select. */
  predicate Reopenable(r: Row) {
    r.status.Failed? && r.attempts < r.budget
  }

  /** Rows for which the design expects no further work to change anything:
      completed, failed with the budget spent, and, as the code stands, also
      retrying. */
  predicate Terminal(r: Row) {
    r.status.Completed? || r.status.Retrying? || (r.status.Failed? && r.attempts >= r.budget)
  }

  function Snapshot(id: Id, r: Row): Job {
    Job(id, r.attempts, r.budget)
  }

  /** `CreateJob` replaces a missing or negative budget by three. */
  function Budget(requested: int): (b: nat)
    ensures b >= 1
    ensures b == requested || (b == 3 && requested <= 0)
  {
    if requested <= 0 then 3 else requested
  }

  /** `UPDATE jobs SET status = ? WHERE id = ?`, with no guard on the old status. */
  function SetStatus(rows: map<Id, Row>, id: Id, status: Status): map<Id, Row> {
    if id in rows then rows[id := rows[id].(status := status)] else rows
  }

  /** As `SetStatus`, also doing `attempts = attempts + 1`. */
  function SetFailure(rows: map<Id, Row>, id: Id, status: Status): map<Id, Row> {
    if id in rows
    then rows[id := rows[id].(status := status, attempts := rows[id].attempts + 1)]
    else rows
  }

  /** The row state a failed attempt is written with, judged on the worker's own
      copy after its increment. */
  function FailureStatus(job: Job): Status {
    if job.attempts >= job.budget then Failed else Retrying
  }
}
