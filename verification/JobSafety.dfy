/** Safety of the job lifecycle over whole runs: one live copy per job, the
    attempt budget, absorbing rows, and the processing set. */
module JobSafety {
  import opened Outcomes
  import opened JobStore
  import opened JobProtocol

  /** Everywhere a copy of a job can be. */
  datatype Place =
    | InQueue(i: nat)
    | InHand(w: nat)
    | InBatch(k: nat, i: nat)
    | InCreate(call: nat)

  predicate Occupied(s: State, p: Place) {
    match p
    case InQueue(i) => i < |s.queue|
    case InHand(w) => w < |s.workers| && s.workers[w].Busy?
    case InBatch(k, i) => k < |s.schedulers| && i < |s.schedulers[k].batch|
    case InCreate(call) => call in s.creating
  }

  function JobAt(s: State, p: Place): Job
    requires Occupied(s, p)
  {
    match p
    case InQueue(i) => s.queue[i]
    case InHand(w) => s.workers[w].job
    case InBatch(k, i) => s.schedulers[k].batch[i]
    case InCreate(call) => s.creating[call]
  }

  /** A job id has at most one live copy. */
  ghost predicate UniqueCopies(s: State) {
    forall p, q :: Occupied(s, p) && Occupied(s, q) && JobAt(s, p).id == JobAt(s, q).id ==> p == q
  }

  // ----- The invariant -----

  /** Untouched since it was queued. */
  predicate Fresh(j: Job, r: Row) {
    r == Row(Pending, j.attempts, j.budget) && j.attempts < j.budget
  }

  predicate Running(j: Job, r: Row) {
    && (r.status.Pending? || r.status.Processing?)
    && j.attempts == r.attempts < j.budget == r.budget
  }

  predicate HandAgrees(at: Point, j: Job, r: Row) {
    match at
    case Counting => Fresh(j, r)
    case Marking => Fresh(j, r)
    case Starting => Fresh(j, r)
    case Handling => Running(j, r)
    case Completing => Running(j, r)
    case Failing => j.attempts > 0 && Running(j.(attempts := j.attempts - 1), r)
    case _ => !Reopenable(r)
  }

  /** How the copy at `p` relates to its row. */
  predicate Agrees(s: State, p: Place)
    requires Occupied(s, p)
  {
    var j := JobAt(s, p);
    && j.id in s.rows
    && match p
       case InQueue(_) => Fresh(j, s.rows[j.id])
       case InCreate(_) => Fresh(j, s.rows[j.id])
       case InHand(w) => HandAgrees(s.workers[w].at, j, s.rows[j.id])
       case InBatch(k, i) =>
         if i == 0 && s.schedulers[k].pushing then Fresh(j, s.rows[j.id])
         else Reopenable(s.rows[j.id]) && j == Snapshot(j.id, s.rows[j.id])
  }

  ghost predicate AllAgree(s: State) {
    forall p :: Occupied(s, p) ==> Agrees(s, p)
  }

  ghost predicate RowsBounded(s: State) {
    forall id :: id in s.rows ==> id in s.hist.issued && s.rows[id].attempts <= s.rows[id].budget
  }

  /** A job leaves the queue once: afterwards its only copy is the worker's, and
      the scheduler can no longer select its row. */
  ghost predicate PoppedOnce(s: State) {
    && (forall id :: id in s.hist.popped ==> id in s.rows && !Reopenable(s.rows[id]) && s.rows[id].budget > 0)
    && (forall p :: Occupied(s, p) ==> (JobAt(s, p).id in s.hist.popped <==> p.InHand?))
  }

  predicate BeforeHandler(at: Point) {
    at.Counting? || at.Marking? || at.Starting? || at.Handling?
  }

  ghost predicate HandledOnce(s: State) {
    && (forall id :: s.hist.handled[id] <= 1)
    && (forall id :: s.hist.handled[id] > 0 ==> id in s.hist.popped)
    && (forall w :: 0 <= w < |s.workers| && s.workers[w].Busy? && BeforeHandler(s.workers[w].at) ==>
          s.hist.handled[s.workers[w].job.id] == 0)
  }

  /** Between `MarkProcessing` and `MarkCompleted` or `MarkFailed`. */
  predicate InWindow(at: Point) {
    at.Starting? || at.Handling? || at.Completing? || at.Clearing? || at.Failing? || at.Rescheduling?
  }

  predicate MarkedBy(s: State, w: nat, id: Id) {
    w < |s.workers| && s.workers[w].Busy? && InWindow(s.workers[w].at) && s.workers[w].job.id == id
  }

  predicate Tallying(at: Point) {
    at.TallyDone? || at.TallyFailed?
  }

  /** The processing set is the ids inside the window together with the ids some
      failed call left behind. */
  ghost predicate ProcessingExact(s: State) {
    && (forall id :: id in s.processing <==> id in s.hist.leaked || exists w :: MarkedBy(s, w, id))
    && (forall id :: id in s.hist.leaked ==> id in s.hist.popped)
    && (forall w :: 0 <= w < |s.workers| && s.workers[w].Busy? && !Tallying(s.workers[w].at) ==>
          s.workers[w].job.id !in s.hist.leaked)
  }

  ghost predicate LaunchedInOrder(s: State) {
    forall w :: s.life.launched <= w < |s.workers| ==> s.workers[w].Unlaunched?
  }

  /** No two schedulers can select the same row: there is one, or there is
      nothing to select. */
  ghost predicate OneSelector(s: State) {
    |s.schedulers| <= 1 || forall id :: id in s.rows ==> !Reopenable(s.rows[id])
  }

  ghost predicate Core(s: State) {
    OneSelector(s) && LaunchedInOrder(s) && UniqueCopies(s) && AllAgree(s) && RowsBounded(s) && PoppedOnce(s)
  }

  // ----- Where copies come from -----

  /** The place in `s` from which step `a` brings the copy it leaves at `p`. */
  function Origin(s: State, a: Step, p: Place): Place {
    match a
    case Push(call, o, _) =>
      if !o.Applied() || !p.InQueue? then p
      else if p.i == 0 then InCreate(call) else InQueue(p.i - 1)
    case Poll(w, o) =>
      if o.Done? && s.queue != [] && p == InHand(w) then InQueue(|s.queue| - 1) else p
    case Reopen(k, o) =>
      if !o.Done? && p.InBatch? && p.k == k then InBatch(k, p.i + 1) else p
    case Repush(k, o, _) =>
      if p.InBatch? && p.k == k then InBatch(k, p.i + 1)
      else if !o.Applied() || !p.InQueue? then p
      else if p.i == 0 then InBatch(k, 0) else InQueue(p.i - 1)
    case _ => p
  }

  /** Only `Create` and `Select` make new copies. */
  predicate Copying(a: Step) {
    a.Create? || a.Select?
  }

  /** The copy at `p` after the step is the one that was at its origin. */
  ghost predicate Kept(s: State, a: Step, p: Place)
    requires Enabled(s, a) && Occupied(Apply(s, a), p)
  {
    var o := Origin(s, a, p);
    && Occupied(s, o)
    && JobAt(s, o).id == JobAt(Apply(s, a), p).id
    && (!a.Work? ==> JobAt(s, o) == JobAt(Apply(s, a), p))
  }

  lemma QueueOrigin(s: State, a: Step, i: nat)
    requires Enabled(s, a) && !Copying(a) && Occupied(Apply(s, a), InQueue(i))
    ensures Kept(s, a, InQueue(i))
  {
  }

  lemma HandOrigin(s: State, a: Step, w: nat)
    requires Enabled(s, a) && !Copying(a) && Occupied(Apply(s, a), InHand(w))
    ensures Kept(s, a, InHand(w))
  {
  }

  lemma BatchOrigin(s: State, a: Step, k: nat, i: nat)
    requires Enabled(s, a) && !Copying(a) && Occupied(Apply(s, a), InBatch(k, i))
    ensures Kept(s, a, InBatch(k, i))
  {
  }

  lemma OriginKeepsJob(s: State, a: Step, p: Place)
    requires Enabled(s, a) && !Copying(a) && Occupied(Apply(s, a), p)
    ensures Kept(s, a, p)
  {
    match p
    case InQueue(i) => QueueOrigin(s, a, i);
    case InHand(w) => HandOrigin(s, a, w);
    case InBatch(k, i) => BatchOrigin(s, a, k, i);
    case InCreate(_) =>
  }

  lemma OriginInjective(s: State, a: Step, p: Place, q: Place)
    requires Enabled(s, a) && !Copying(a)
    requires Occupied(Apply(s, a), p) && Occupied(Apply(s, a), q)
    requires Origin(s, a, p) == Origin(s, a, q)
    ensures p == q
  {
  }

  // ----- Which rows a step writes -----

  /** Whether step `a` writes the row of the job at place `p`. */
  predicate Writes(s: State, a: Step, p: Place)
    requires Enabled(s, a)
  {
    match a
    case Work(w, _, _) =>
      p == InHand(w) && (s.workers[w].at.Starting? || s.workers[w].at.Completing? || s.workers[w].at.Failing?)
    case Reopen(k, _) => p == InBatch(k, 0)
    case _ => false
  }

  /** A row changes only if the step writes it from some place that holds a copy. */
  lemma RowsFrame(s: State, a: Step, id: Id)
    requires Enabled(s, a) && id in s.rows && (a.Create? ==> a.id != id)
    requires forall p :: Occupied(s, p) && Writes(s, a, p) ==> JobAt(s, p).id != id
    ensures id in Apply(s, a).rows && Apply(s, a).rows[id] == s.rows[id]
  {
    match a
    case Work(w, _, _) =>
      assert Occupied(s, InHand(w));
    case Reopen(k, _) =>
      assert Occupied(s, InBatch(k, 0));
    case _ =>
  }

  // ----- Every step keeps the invariant -----

  lemma UniqueStep(s: State, a: Step)
    requires Core(s) && Enabled(s, a)
    ensures UniqueCopies(Apply(s, a))
  {
    var t := Apply(s, a);
    forall p, q | Occupied(t, p) && Occupied(t, q) && JobAt(t, p).id == JobAt(t, q).id
      ensures p == q
    {
      if a.Create? {
        UniqueAfterCreate(s, a, p, q);
      } else if a.Select? {
        UniqueAfterSelect(s, a, p, q);
      } else {
        OriginKeepsJob(s, a, p);
        OriginKeepsJob(s, a, q);
        OriginInjective(s, a, p, q) by {
          assert JobAt(s, Origin(s, a, p)).id == JobAt(s, Origin(s, a, q)).id;
        }
      }
    }
  }

  /** A generated id is new, so the created copy has no double. */
  lemma UniqueAfterCreate(s: State, a: Step, p: Place, q: Place)
    requires Core(s) && Enabled(s, a) && a.Create?
    requires Occupied(Apply(s, a), p) && Occupied(Apply(s, a), q)
    requires JobAt(Apply(s, a), p).id == JobAt(Apply(s, a), q).id
    ensures p == q
  {
    assert Occupied(s, p) ==> JobAt(s, p).id in s.hist.issued by {
      if Occupied(s, p) { assert Agrees(s, p); }
    }
    assert Occupied(s, q) ==> JobAt(s, q).id in s.hist.issued by {
      if Occupied(s, q) { assert Agrees(s, q); }
    }
  }

  /** A reopenable row has no copy anywhere once the scheduler's batch is empty. */
  lemma UniqueAfterSelect(s: State, a: Step, p: Place, q: Place)
    requires Core(s) && Enabled(s, a) && a.Select?
    requires Occupied(Apply(s, a), p) && Occupied(Apply(s, a), q)
    requires JobAt(Apply(s, a), p).id == JobAt(Apply(s, a), q).id
    ensures p == q
  {
    if !p.InBatch? {
      assert Agrees(s, p) && JobAt(s, p) == JobAt(Apply(s, a), p);
    }
    if !q.InBatch? {
      assert Agrees(s, q) && JobAt(s, q) == JobAt(Apply(s, a), q);
    }
  }

  lemma RowsBoundedStep(s: State, a: Step)
    requires Core(s) && Enabled(s, a)
    ensures RowsBounded(Apply(s, a))
  {
    match a
    case Work(w, _, _) =>
      assert Agrees(s, InHand(w));
    case _ =>
  }

  /** A copy whose row the step does not write still agrees with it. */
  lemma AgreeUnwritten(s: State, a: Step, p: Place)
    requires Core(s) && Enabled(s, a) && !Copying(a) && Occupied(Apply(s, a), p)
    requires !Writes(s, a, Origin(s, a, p))
    ensures Agrees(Apply(s, a), p)
  {
    var o := Origin(s, a, p);
    OriginKeepsJob(s, a, p);
    assert Agrees(s, o);
    RowsFrame(s, a, JobAt(s, o).id);
  }

  lemma AgreeWritten(s: State, a: Step, p: Place)
    requires Core(s) && Enabled(s, a) && !Copying(a) && Occupied(Apply(s, a), p)
    requires Writes(s, a, Origin(s, a, p))
    ensures Agrees(Apply(s, a), p)
  {
    assert Agrees(s, Origin(s, a, p)) by { OriginKeepsJob(s, a, p); }
  }

  lemma AgreeStep(s: State, a: Step)
    requires Core(s) && Enabled(s, a)
    ensures AllAgree(Apply(s, a))
  {
    var t := Apply(s, a);
    forall p | Occupied(t, p)
      ensures Agrees(t, p)
    {
      if Copying(a) {
        AgreeCopying(s, a, p);
      } else if Writes(s, a, Origin(s, a, p)) {
        AgreeWritten(s, a, p);
      } else {
        AgreeUnwritten(s, a, p);
      }
    }
  }

  lemma AgreeCopying(s: State, a: Step, p: Place)
    requires Core(s) && Enabled(s, a) && Copying(a) && Occupied(Apply(s, a), p)
    ensures Agrees(Apply(s, a), p)
  {
    if Occupied(s, p) {
      assert Agrees(s, p);
    }
  }

  lemma PoppedStep(s: State, a: Step)
    requires Core(s) && Enabled(s, a)
    ensures PoppedOnce(Apply(s, a))
  {
    var t := Apply(s, a);
    forall id | id in t.hist.popped
      ensures id in t.rows && !Reopenable(t.rows[id]) && t.rows[id].budget > 0
    {
      PoppedRow(s, a, id);
    }
    forall p | Occupied(t, p)
      ensures JobAt(t, p).id in t.hist.popped <==> p.InHand?
    {
      PoppedPlace(s, a, p);
    }
  }

  /** No step makes a row reopenable. */
  lemma NeverReopenable(s: State, a: Step, id: Id)
    requires Core(s) && Enabled(s, a)
    requires id in Apply(s, a).rows && Reopenable(Apply(s, a).rows[id])
    ensures id in s.rows && Reopenable(s.rows[id])
  {
    match a
    case Work(w, _, _) =>
      assert Agrees(s, InHand(w));
    case _ =>
  }

  lemma PoppedRow(s: State, a: Step, id: Id)
    requires Core(s) && Enabled(s, a) && id in Apply(s, a).hist.popped
    ensures id in Apply(s, a).rows && !Reopenable(Apply(s, a).rows[id]) && Apply(s, a).rows[id].budget > 0
  {
    if id !in s.hist.popped {
      assert Agrees(s, InQueue(|s.queue| - 1));
    }
    if id in Apply(s, a).rows && Reopenable(Apply(s, a).rows[id]) {
      NeverReopenable(s, a, id);
    }
  }

  lemma PoppedPlace(s: State, a: Step, p: Place)
    requires Core(s) && Enabled(s, a) && Occupied(Apply(s, a), p)
    ensures JobAt(Apply(s, a), p).id in Apply(s, a).hist.popped <==> p.InHand?
  {
    if Copying(a) {
      if Occupied(s, p) {
        assert JobAt(s, p).id in s.hist.popped <==> p.InHand?;
        assert Agrees(s, p);
      }
    } else {
      var o := Origin(s, a, p);
      OriginKeepsJob(s, a, p);
      assert JobAt(s, o).id in s.hist.popped <==> o.InHand?;
      if a.Poll? && s.queue != [] {
        var last := InQueue(|s.queue| - 1);
        assert Occupied(s, last);
        assert JobAt(s, o).id == JobAt(s, last).id ==> o == last;
      }
    }
  }

  lemma CoreStep(s: State, a: Step)
    requires Core(s) && Enabled(s, a)
    ensures Core(Apply(s, a))
  {
    var t := Apply(s, a);
    forall id | |t.schedulers| > 1 && id in t.rows && Reopenable(t.rows[id])
      ensures false
    {
      NeverReopenable(s, a, id);
    }
    UniqueStep(s, a);
    AgreeStep(s, a);
    RowsBoundedStep(s, a);
    PoppedStep(s, a);
  }

  lemma HandledStep(s: State, a: Step)
    requires Core(s) && HandledOnce(s) && Enabled(s, a)
    ensures HandledOnce(Apply(s, a))
  {
    var t := Apply(s, a);
    forall w | 0 <= w < |t.workers| && t.workers[w].Busy? && BeforeHandler(t.workers[w].at)
      ensures t.hist.handled[t.workers[w].job.id] == 0
    {
      HandledHand(s, a, w);
    }
    forall id
      ensures t.hist.handled[id] <= 1 && (t.hist.handled[id] > 0 ==> id in t.hist.popped)
    {
      HandledId(s, a, id);
    }
  }

  lemma HandledId(s: State, a: Step, id: Id)
    requires Core(s) && HandledOnce(s) && Enabled(s, a)
    ensures Apply(s, a).hist.handled[id] <= 1
    ensures Apply(s, a).hist.handled[id] > 0 ==> id in Apply(s, a).hist.popped
  {
    if a.Work? && s.workers[a.w].at.Handling? && s.workers[a.w].job.id == id {
      var p := InHand(a.w);
      assert Occupied(s, p) && JobAt(s, p).id in s.hist.popped;
      assert s.hist.handled[id] == 0;
    } else {
      HandledFrame(s, a, id);
    }
  }

  lemma HandledHand(s: State, a: Step, w: nat)
    requires Core(s) && HandledOnce(s) && Enabled(s, a)
    requires w < |Apply(s, a).workers|
    requires Apply(s, a).workers[w].Busy? && BeforeHandler(Apply(s, a).workers[w].at)
    ensures Apply(s, a).hist.handled[Apply(s, a).workers[w].job.id] == 0
  {
    if !ActsOn(s, a, w) {
      WorkerFrame(s, a, w);
      OtherHand(s, a, w);
      HandledFrame(s, a, s.workers[w].job.id);
    } else {
      BusyAfter(s, a, w);
      if a.Poll? {
        PolledIsNew(s, a);
      } else {
        OwnWork(s, w, a.o, a.result);
      }
    }
  }

  /** Only a successful `Dequeue` or its own work leaves a worker holding a job. */
  lemma BusyAfter(s: State, a: Step, w: nat)
    requires Enabled(s, a) && w < |Apply(s, a).workers| && ActsOn(s, a, w) && Apply(s, a).workers[w].Busy?
    ensures a.Poll? || a.Work?
  {
  }

  /** What a worker's own action can do to its job's bookkeeping. */
  lemma OwnWork(s: State, w: nat, o: Outcome, result: Result)
    requires w < |s.workers| && s.workers[w].Busy?
    ensures var t := DoWork(s, w, o, result);
            var id := s.workers[w].job.id;
            && |t.workers| == |s.workers|
            && (t.workers[w].Busy? ==> t.workers[w].job.id == id)
            && (t.workers[w].Busy? && BeforeHandler(t.workers[w].at) ==>
                  BeforeHandler(s.workers[w].at) && t.hist.handled == s.hist.handled)
            && (t.workers[w].Busy? && !Tallying(t.workers[w].at) ==>
                  !Tallying(s.workers[w].at) && t.hist.leaked == s.hist.leaked)
            && (t.hist.leaked == s.hist.leaked || t.hist.leaked == s.hist.leaked + {id})
            && (t.processing == s.processing || t.processing == s.processing + {id}
                || t.processing == s.processing - {id})
  {
  }

  /** The steps that change what worker `w` is doing. */
  predicate ActsOn(s: State, a: Step, w: nat) {
    match a
    case Launch => s.life.launched == w
    case Quit(v) => v == w
    case Look(v) => v == w
    case Poll(v, _) => v == w
    case Work(v, _, _) => v == w
    case Leave(v) => v == w
    case _ => false
  }

  lemma WorkerFrame(s: State, a: Step, w: nat)
    requires Enabled(s, a) && w < |Apply(s, a).workers| && !ActsOn(s, a, w)
    ensures w < |s.workers| && Apply(s, a).workers[w] == s.workers[w]
  {
  }

  lemma HandledFrame(s: State, a: Step, id: Id)
    requires Enabled(s, a)
    requires a.Work? && s.workers[a.w].at.Handling? ==> s.workers[a.w].job.id != id
    ensures Apply(s, a).hist.handled[id] == s.hist.handled[id]
  {
  }

  /** Two workers hold different jobs. */
  lemma OtherHand(s: State, a: Step, w: nat)
    requires Core(s) && Enabled(s, a) && w < |s.workers| && s.workers[w].Busy? && !ActsOn(s, a, w)
    ensures a.Work? ==> s.workers[a.w].job.id != s.workers[w].job.id
  {
    if a.Work? {
      var p, q := InHand(w), InHand(a.w);
      assert Occupied(s, p) && Occupied(s, q);
      assert JobAt(s, p).id == JobAt(s, q).id ==> p == q;
    }
  }

  /** A job a worker takes off the queue was never taken before. */
  lemma PolledIsNew(s: State, a: Step)
    requires Core(s) && Enabled(s, a) && a.Poll? && Apply(s, a).workers[a.w].Busy?
    ensures Apply(s, a).workers[a.w].job.id !in s.hist.popped
    ensures Apply(s, a).workers[a.w].at.Counting?
    ensures Apply(s, a).hist.handled == s.hist.handled && Apply(s, a).hist.leaked == s.hist.leaked
  {
    var last := InQueue(|s.queue| - 1);
    assert Occupied(s, last) && JobAt(s, last).id !in s.hist.popped;
  }

  lemma ProcessingStep(s: State, a: Step)
    requires Core(s) && ProcessingExact(s) && Enabled(s, a)
    ensures ProcessingExact(Apply(s, a))
  {
    var t := Apply(s, a);
    forall id
      ensures id in t.processing <==> id in t.hist.leaked || exists w :: MarkedBy(t, w, id)
    {
      ProcessingId(s, a, id);
    }
    forall w | 0 <= w < |t.workers| && t.workers[w].Busy? && !Tallying(t.workers[w].at)
      ensures t.workers[w].job.id !in t.hist.leaked
    {
      LeakedHand(s, a, w);
    }
    if a.Work? {
      assert Occupied(s, InHand(a.w)) && JobAt(s, InHand(a.w)).id in s.hist.popped;
    }
  }

  lemma LeakedHand(s: State, a: Step, w: nat)
    requires Core(s) && ProcessingExact(s) && Enabled(s, a)
    requires w < |Apply(s, a).workers|
    requires Apply(s, a).workers[w].Busy? && !Tallying(Apply(s, a).workers[w].at)
    ensures Apply(s, a).workers[w].job.id !in Apply(s, a).hist.leaked
  {
    if !ActsOn(s, a, w) {
      WorkerFrame(s, a, w);
      OtherHand(s, a, w);
      LeakedFrame(s, a, s.workers[w].job.id);
    } else {
      BusyAfter(s, a, w);
      if a.Poll? {
        PolledIsNew(s, a);
      } else {
        OwnWork(s, w, a.o, a.result);
      }
    }
  }

  lemma LeakedFrame(s: State, a: Step, id: Id)
    requires Enabled(s, a) && (a.Work? ==> s.workers[a.w].job.id != id)
    ensures id in Apply(s, a).hist.leaked <==> id in s.hist.leaked
    ensures id in Apply(s, a).processing <==> id in s.processing
  {
    if a.Work? {
      OwnWork(s, a.w, a.o, a.result);
    } else {
      assert Apply(s, a).hist.leaked == s.hist.leaked && Apply(s, a).processing == s.processing;
    }
  }

  /** A step that is not a holding worker's moves no job into or out of the window. */
  lemma MarkedFrame(s: State, a: Step, w: nat, id: Id)
    requires LaunchedInOrder(s) && Enabled(s, a) && !(a.Work? && a.w == w)
    ensures MarkedBy(Apply(s, a), w, id) <==> MarkedBy(s, w, id)
  {
    assert |Apply(s, a).workers| == |s.workers|;
    if w < |s.workers| {
      if !ActsOn(s, a, w) {
        WorkerFrame(s, a, w);
      } else if Apply(s, a).workers[w].Busy? {
        BusyAfter(s, a, w);
        assert s.workers[w].Waiting? && Apply(s, a).workers[w].at.Counting?;
      } else {
        assert !s.workers[w].Busy?;
      }
    }
  }

  lemma ProcessingId(s: State, a: Step, id: Id)
    requires Core(s) && ProcessingExact(s) && Enabled(s, a)
    ensures id in Apply(s, a).processing <==>
            id in Apply(s, a).hist.leaked || exists w :: MarkedBy(Apply(s, a), w, id)
  {
    var t := Apply(s, a);
    forall w | !(a.Work? && a.w == w)
      ensures MarkedBy(t, w, id) <==> MarkedBy(s, w, id)
    {
      MarkedFrame(s, a, w, id);
    }
    if a.Work? {
      forall w | MarkedBy(s, w, s.workers[a.w].job.id)
        ensures w == a.w
      {
        if w != a.w {
          OtherHand(s, a, w);
        }
      }
      ProcessingWork(s, a, id);
    } else {
      LeakedFrame(s, a, id);
      assert (exists w :: MarkedBy(t, w, id)) <==> (exists w :: MarkedBy(s, w, id));
    }
  }

  lemma ProcessingWork(s: State, a: Step, id: Id)
    requires Core(s) && ProcessingExact(s) && Enabled(s, a) && a.Work?
    requires forall w :: MarkedBy(s, w, s.workers[a.w].job.id) ==> w == a.w
    requires forall w :: !(a.w == w) ==> (MarkedBy(Apply(s, a), w, id) <==> MarkedBy(s, w, id))
    ensures id in Apply(s, a).processing <==>
            id in Apply(s, a).hist.leaked || exists w :: MarkedBy(Apply(s, a), w, id)
  {
    var t := Apply(s, a);
    if id != s.workers[a.w].job.id {
      assert !MarkedBy(s, a.w, id) && !MarkedBy(t, a.w, id);
      assert (exists w :: MarkedBy(t, w, id)) <==> (exists w :: MarkedBy(s, w, id));
    } else {
      assert (exists w :: MarkedBy(s, w, id)) <==> MarkedBy(s, a.w, id);
      assert (exists w :: MarkedBy(t, w, id)) <==> MarkedBy(t, a.w, id);
    }
  }

  // ----- Whole runs -----

  ghost predicate Safe(s: State) {
    Core(s) && HandledOnce(s) && ProcessingExact(s)
  }

  lemma SafeStep(s: State, a: Step)
    requires Safe(s) && Enabled(s, a)
    ensures Safe(Apply(s, a))
  {
    CoreStep(s, a);
    HandledStep(s, a);
    ProcessingStep(s, a);
  }

  lemma {:induction false} SafeRun(s: State, run: seq<Step>, t: State)
    requires Safe(s) && Reaches(s, run, t)
    ensures Safe(t)
    decreases |run|
  {
    if run != [] {
      SafeStep(s, run[0]);
      SafeRun(Apply(s, run[0]), run[1..], t);
    }
  }

  lemma InitIsSafe(s: State)
    requires Init(s) && OneSelector(s)
    ensures Safe(s)
  {
  }

  /** In every reachable state, under any interleaving and any pattern of failing
      store calls, a job id has at most one copy across the queue, all workers'
      hands, the schedulers' batches and the `CreateJob` calls. */
  lemma OneLiveCopy(s: State, run: seq<Step>, t: State)
    requires Init(s) && OneSelector(s) && Reaches(s, run, t)
    ensures UniqueCopies(t)
  {
    InitIsSafe(s);
    SafeRun(s, run, t);
  }

  /** A scheduler whose batch is one job puts it on the queue. */
  lemma Requeues(root: State, s: State, k: nat, job: Job) returns (t: State)
    requires Leads(root, s) && k < |s.schedulers| && s.schedulers[k] == Scheduler([job], false)
    ensures Leads(root, t) && t.queue == [job] + s.queue
    ensures t.schedulers == s.schedulers[k := Scheduler([], false)]
  {
    var m := Apply(s, Reopen(k, Done));
    LeadsOn(root, s, Reopen(k, Done));
    LeadsOn(root, m, Repush(k, Done, false));
    t := Apply(m, Repush(k, Done, false));
    assert [job][1..] == [];
  }

  /** Two schedulers and one reopenable row are enough to queue a job twice. */
  lemma TwoSelectorsDuplicate(s: State, id: Id) returns (run: seq<Step>, t: State)
    requires Init(s) && |s.schedulers| > 1 && id in s.rows && Reopenable(s.rows[id])
    ensures Reaches(s, run, t) && !UniqueCopies(t)
    ensures |t.queue| >= 2 && t.queue[0].id == t.queue[1].id == id
  {
    var job := Snapshot(id, s.rows[id]);
    LeadsNowhere(s);
    LeadsOn(s, s, Select(0, [job]));
    var s1 := Apply(s, Select(0, [job]));
    LeadsOn(s, s1, Select(1, [job]));
    var s2 := Apply(s1, Select(1, [job]));
    var s3 := Requeues(s, s2, 0, job);
    t := Requeues(s, s3, 1, job);
    run :| Reaches(s, run, t);
    assert Occupied(t, InQueue(0)) && Occupied(t, InQueue(1));
    assert JobAt(t, InQueue(0)).id == JobAt(t, InQueue(1)).id;
  }

  ghost predicate AlwaysUnique(s: State) {
    forall run, t :: Reaches(s, run, t) ==> UniqueCopies(t)
  }

  /** `OneSelector` is the exact condition for unique copies in every run. */
  lemma UniqueCopiesExactly(s: State)
    requires Init(s)
    ensures AlwaysUnique(s) <==> OneSelector(s)
  {
    if OneSelector(s) {
      forall run, t | Reaches(s, run, t)
        ensures UniqueCopies(t)
      {
        OneLiveCopy(s, run, t);
      }
    } else {
      var id :| id in s.rows && Reopenable(s.rows[id]);
      var run, t := TwoSelectorsDuplicate(s, id);
      assert AlwaysUnique(s) && Reaches(s, run, t) ==> UniqueCopies(t);
    }
  }

  /** The last point at which a worker has yet to write its job's row. */
  predicate Unwritten(s: State, p: Place)
    requires Occupied(s, p)
  {
    !p.InHand? || BeforeHandler(s.workers[p.w].at) || s.workers[p.w].at.Completing?
  }

  /** The attempt budget over whole runs: rows never exceed it, a live copy
      carries its row's attempt count until a failure is recorded on it, what the
      pool leaves as failed is out of attempts, and the handler runs no more
      often than the budget allows. In fact it runs at most once per job. */
  lemma AttemptBudget(s: State, run: seq<Step>, t: State, id: Id)
    requires Init(s) && OneSelector(s) && Reaches(s, run, t) && id in t.rows
    ensures t.rows[id].attempts <= t.rows[id].budget
    ensures forall p :: Occupied(t, p) && JobAt(t, p).id == id && Unwritten(t, p) ==>
              JobAt(t, p) == Snapshot(id, t.rows[id])
    ensures forall w: nat :: Occupied(t, InHand(w)) && JobAt(t, InHand(w)).id == id && t.workers[w].at.Failing? ==>
              t.workers[w].job == Job(id, t.rows[id].attempts + 1, t.rows[id].budget)
    ensures id in t.hist.popped && t.rows[id].status.Failed? ==> t.rows[id].attempts == t.rows[id].budget
    ensures t.hist.handled[id] <= 1 && t.hist.handled[id] <= t.rows[id].budget
  {
    InitIsSafe(s);
    SafeRun(s, run, t);
    forall p | Occupied(t, p) && JobAt(t, p).id == id
      ensures Agrees(t, p)
    {
    }
    forall w: nat | Occupied(t, InHand(w)) && JobAt(t, InHand(w)).id == id && t.workers[w].at.Failing?
      ensures t.workers[w].job == Job(id, t.rows[id].attempts + 1, t.rows[id].budget)
    {
      assert Agrees(t, InHand(w));
    }
  }

  /** A reopenable row was reopenable when the run began: the scheduler never
      selects a row the pool wrote. */
  lemma {:induction false} ReopenableFromStart(s: State, run: seq<Step>, t: State, id: Id)
    requires Safe(s) && Reaches(s, run, t)
    requires id in t.rows && Reopenable(t.rows[id])
    ensures id in s.rows && Reopenable(s.rows[id])
    decreases |run|
  {
    if run != [] {
      SafeStep(s, run[0]);
      ReopenableFromStart(Apply(s, run[0]), run[1..], t, id);
      NeverReopenable(s, run[0], id);
    }
  }

  /** The rows an idle scheduler may select: failed, with attempts left. */
  lemma SelectableExactly(s: State, k: nat, id: Id)
    requires k < |s.schedulers| && s.schedulers[k].batch == [] && id in s.rows
    ensures Enabled(s, Select(k, [Job(id, s.rows[id].attempts, s.rows[id].budget)])) <==>
            s.rows[id].status == Failed && s.rows[id].attempts < s.rows[id].budget
  {
    assert [Job(id, s.rows[id].attempts, s.rows[id].budget)][0].id == id;
  }

  /** Hence, from a table without such rows, every selection is empty. */
  lemma SchedulerFindsNothing(s: State, run: seq<Step>, t: State, k: nat, batch: seq<Job>)
    requires Init(s) && OneSelector(s) && Reaches(s, run, t)
    requires forall id :: id in s.rows ==> !Reopenable(s.rows[id])
    requires Enabled(t, Select(k, batch))
    ensures batch == []
  {
    InitIsSafe(s);
    if batch != [] {
      ReopenableFromStart(s, run, t, batch[0].id);
    }
  }

  /** A terminal row is changed by no step, and its handler is not run. */
  lemma TerminalStep(s: State, a: Step, id: Id)
    requires Safe(s) && Enabled(s, a) && id in s.rows && Terminal(s.rows[id])
    ensures id in Apply(s, a).rows && Apply(s, a).rows[id] == s.rows[id]
    ensures Apply(s, a).hist.handled[id] == s.hist.handled[id]
  {
    forall p | Occupied(s, p) && JobAt(s, p).id == id
      ensures !Writes(s, a, p)
    {
      assert Agrees(s, p);
    }
    RowsFrame(s, a, id);
    if a.Work? && s.workers[a.w].at.Handling? {
      assert Agrees(s, InHand(a.w));
    }
  }

  /** Completed rows, failed rows out of attempts, and retrying rows are
      absorbing, although no UPDATE looks at the old status. */
  lemma {:induction false} TerminalRowsAbsorbing(s: State, run: seq<Step>, t: State, id: Id)
    requires Safe(s) && Reaches(s, run, t) && id in s.rows && Terminal(s.rows[id])
    ensures id in t.rows && t.rows[id] == s.rows[id]
    ensures t.hist.handled[id] == s.hist.handled[id]
    decreases |run|
  {
    if run != [] {
      TerminalStep(s, run[0], id);
      SafeStep(s, run[0]);
      TerminalRowsAbsorbing(Apply(s, run[0]), run[1..], t, id);
    }
  }

  /** The processing set over whole runs: the ids inside the window, plus those
      that a lost mark or a refused clear left behind, never both. */
  lemma ProcessingSet(s: State, run: seq<Step>, t: State, id: Id)
    requires Init(s) && OneSelector(s) && Reaches(s, run, t)
    ensures (exists w :: MarkedBy(t, w, id)) ==> id in t.processing && id !in t.hist.leaked
    ensures id in t.processing <==> id in t.hist.leaked || exists w :: MarkedBy(t, w, id)
  {
    InitIsSafe(s);
    SafeRun(s, run, t);
  }

  /** No store call of a worker fails. */
  predicate NoErrors(run: seq<Step>) {
    forall i :: 0 <= i < |run| && run[i].Work? ==> run[i].o.Done?
  }

  lemma {:induction false} NoErrorsNoLeaks(s: State, run: seq<Step>, t: State)
    requires Reaches(s, run, t) && NoErrors(run)
    ensures t.hist.leaked == s.hist.leaked
    decreases |run|
  {
    if run != [] {
      var a := run[0];
      assert Apply(s, a).hist.leaked == s.hist.leaked;
      NoErrorsNoLeaks(Apply(s, a), run[1..], t);
    }
  }

  /** Without errors the processing set is exactly the jobs being worked on. */
  lemma ProcessingSetWithoutErrors(s: State, run: seq<Step>, t: State, id: Id)
    requires Init(s) && OneSelector(s) && Reaches(s, run, t) && NoErrors(run)
    ensures id in t.processing <==> exists w :: MarkedBy(t, w, id)
  {
    ProcessingSet(s, run, t, id);
    NoErrorsNoLeaks(s, run, t);
  }
}
