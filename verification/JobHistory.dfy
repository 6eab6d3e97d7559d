/** What a jobs row says at any time, told from the steps of the run alone: the
    store calls that were applied and what the handler returned. */
module JobHistory {
  import opened Basics
  import opened JobStore
  import opened JobProtocol
  import opened JobSafety

  /** What happened to a job since it left the queue: the copy that was popped,
      whether the write to processing was applied, what the handler said, and
      whether the final write was applied. */
  datatype Fate = Fate(job: Job, started: bool, verdict: Option<Result>, written: bool)

  type Story = map<Id, Fate>

  /** The step, as far as it concerns rows, added to the story. */
  function Noted(story: Story, s: State, a: Step): Story
    requires Enabled(s, a)
  {
    match a
    case Poll(_, o) =>
      if s.queue == [] || o.Refused? then story
      else
        var job := s.queue[|s.queue| - 1];
        story[job.id := Fate(job, false, None, false)]
    case Work(w, o, result) =>
      var id := s.workers[w].job.id;
      if id !in story then story
      else
        (match s.workers[w].at
         case Starting => story[id := story[id].(started := o.Applied())]
         case Handling => story[id := story[id].(verdict := Some(result))]
         case Completing => story[id := story[id].(written := o.Applied())]
         case Failing => story[id := story[id].(written := o.Applied())]
         case _ => story)
    case _ => story
  }

  function Told(story: Story, s: State, run: seq<Step>, t: State): Story
    requires Reaches(s, run, t)
    decreases |run|
  {
    if run == [] then story else Told(Noted(story, s, run[0]), Apply(s, run[0]), run[1..], t)
  }

  /** The row a fate leaves. Until the final write the job keeps its attempts and is
      pending or, once started, processing. A success completes it. A failure costs
      an attempt and ends as failed when that was the last one, else as retrying. */
  function RowOf(f: Fate): Row {
    if !f.written then Row(if f.started then Processing else Pending, f.job.attempts, f.job.budget)
    else if f.verdict == Some(Succeeds) then Row(Completed, f.job.attempts, f.job.budget)
    else Row(if f.job.attempts + 1 >= f.job.budget then Failed else Retrying, f.job.attempts + 1, f.job.budget)
  }

  /** How far a worker holding the job has got with it. */
  predicate Stage(f: Fate, at: Point, job: Job) {
    match at
    case Counting => f == Fate(job, false, None, false)
    case Marking => f == Fate(job, false, None, false)
    case Starting => f == Fate(job, false, None, false)
    case Handling => f == Fate(job, f.started, None, false)
    case Completing => f == Fate(job, f.started, Some(Succeeds), false)
    case Failing =>
      && f.job.(attempts := f.job.attempts + 1) == job && !f.written
      && f.verdict.Some? && !f.verdict.value.Succeeds?
    case _ => true
  }

  /** How often the handler was run for the job, as the story has it. */
  function Handlings(story: Story, id: Id): nat {
    if id in story && story[id].verdict.Some? && !story[id].verdict.value.NoHandler? then 1 else 0
  }

  ghost predicate StoryHolds(story: Story, s: State) {
    && story.Keys == s.hist.popped
    && (forall id :: s.hist.handled[id] == Handlings(story, id))
    && (forall id :: id in story ==> id in s.rows && s.rows[id] == RowOf(story[id]))
    && (forall w :: 0 <= w < |s.workers| && s.workers[w].Busy? ==>
          s.workers[w].job.id in story && Stage(story[s.workers[w].job.id], s.workers[w].at, s.workers[w].job))
  }

  /** A popped job's row is written by nobody but its own worker. */
  lemma PoppedRowFrame(s: State, a: Step, id: Id)
    requires Core(s) && Enabled(s, a) && id in s.hist.popped
    requires a.Work? ==> s.workers[a.w].job.id != id
    ensures id in s.rows && id in Apply(s, a).rows && Apply(s, a).rows[id] == s.rows[id]
  {
    forall p | Occupied(s, p) && Writes(s, a, p)
      ensures JobAt(s, p).id != id
    {
    }
    RowsFrame(s, a, id);
  }

  lemma RowsFollow(story: Story, s: State, a: Step, id: Id)
    requires Core(s) && StoryHolds(story, s) && Enabled(s, a) && id in Noted(story, s, a)
    ensures id in Apply(s, a).rows && Apply(s, a).rows[id] == RowOf(Noted(story, s, a)[id])
  {
    if a.Work? && s.workers[a.w].job.id == id {
      OwnRowFollows(story, s, a, id);
    } else if a.Poll? && id !in story {
      var last := InQueue(|s.queue| - 1);
      assert Occupied(s, last) && Agrees(s, last);
    } else {
      PoppedRowFrame(s, a, id);
      if a.Poll? && s.queue != [] {
        assert Occupied(s, InQueue(|s.queue| - 1));
      }
    }
  }

  lemma OwnRowFollows(story: Story, s: State, a: Step, id: Id)
    requires Core(s) && StoryHolds(story, s) && Enabled(s, a) && a.Work? && s.workers[a.w].job.id == id
    ensures id in Apply(s, a).rows && Apply(s, a).rows[id] == RowOf(Noted(story, s, a)[id])
  {
    assert Stage(story[id], s.workers[a.w].at, s.workers[a.w].job);
    assert Agrees(s, InHand(a.w));
  }

  lemma OwnStageFollows(story: Story, s: State, a: Step, w: nat)
    requires Core(s) && StoryHolds(story, s) && Enabled(s, a) && ActsOn(s, a, w)
    requires w < |Apply(s, a).workers| && Apply(s, a).workers[w].Busy?
    ensures var t, after := Apply(s, a), Noted(story, s, a);
            t.workers[w].job.id in after && Stage(after[t.workers[w].job.id], t.workers[w].at, t.workers[w].job)
  {
    if a.Work? {
      assert Stage(story[s.workers[w].job.id], s.workers[w].at, s.workers[w].job);
    }
  }

  /** What others do is not noted under the worker's job. */
  lemma OtherNotes(story: Story, s: State, a: Step, w: nat)
    requires Core(s) && StoryHolds(story, s) && Enabled(s, a) && !ActsOn(s, a, w)
    requires w < |s.workers| && s.workers[w].Busy?
    ensures var id, after := s.workers[w].job.id, Noted(story, s, a);
            id in story && id in after && after[id] == story[id]
  {
    OtherHand(s, a, w);
    if a.Poll? && s.queue != [] {
      var p, q := InQueue(|s.queue| - 1), InHand(w);
      assert Occupied(s, p) && Occupied(s, q) && p != q;
      assert JobAt(s, p).id != JobAt(s, q).id;
    }
  }

  lemma StageFollows(story: Story, s: State, a: Step, w: nat)
    requires Core(s) && StoryHolds(story, s) && Enabled(s, a)
    requires w < |Apply(s, a).workers| && Apply(s, a).workers[w].Busy?
    ensures var t, after := Apply(s, a), Noted(story, s, a);
            t.workers[w].job.id in after && Stage(after[t.workers[w].job.id], t.workers[w].at, t.workers[w].job)
  {
    if ActsOn(s, a, w) {
      OwnStageFollows(story, s, a, w);
    } else {
      WorkerFrame(s, a, w);
      OtherNotes(story, s, a, w);
    }
  }

  lemma HandlingsFollow(story: Story, s: State, a: Step, id: Id)
    requires Core(s) && StoryHolds(story, s) && Enabled(s, a)
    ensures Apply(s, a).hist.handled[id] == Handlings(Noted(story, s, a), id)
  {
    if a.Work? && s.workers[a.w].job.id == id {
      assert Stage(story[id], s.workers[a.w].at, s.workers[a.w].job);
    } else if a.Poll? && s.queue != [] {
      assert Occupied(s, InQueue(|s.queue| - 1));
    }
  }

  lemma StoryStep(story: Story, s: State, a: Step)
    requires Core(s) && StoryHolds(story, s) && Enabled(s, a)
    ensures StoryHolds(Noted(story, s, a), Apply(s, a))
  {
    var t, after := Apply(s, a), Noted(story, s, a);
    forall id ensures t.hist.handled[id] == Handlings(after, id) {
      HandlingsFollow(story, s, a, id);
    }
    forall id | id in after
      ensures id in t.rows && t.rows[id] == RowOf(after[id])
    {
      RowsFollow(story, s, a, id);
    }
    forall w | 0 <= w < |t.workers| && t.workers[w].Busy?
      ensures t.workers[w].job.id in after && Stage(after[t.workers[w].job.id], t.workers[w].at, t.workers[w].job)
    {
      StageFollows(story, s, a, w);
    }
  }

  lemma {:induction false} StoryRun(story: Story, s: State, run: seq<Step>, t: State)
    requires Safe(s) && StoryHolds(story, s) && Reaches(s, run, t)
    ensures StoryHolds(Told(story, s, run, t), t)
    decreases |run|
  {
    if run != [] {
      StoryStep(story, s, run[0]);
      SafeStep(s, run[0]);
      StoryRun(Noted(story, s, run[0]), Apply(s, run[0]), run[1..], t);
    }
  }

  /** The story is true: in every reachable state the row of every job that left the
      queue is the one its fate determines, whatever else happened. So a handled
      success with an applied write is completed for good, and a handled failure is
      failed exactly when it spent the last attempt. */
  lemma RowsTellTheStory(s: State, run: seq<Step>, t: State, id: Id)
    requires Init(s) && OneSelector(s) && Reaches(s, run, t)
    ensures id in Told(map[], s, run, t) <==> id in t.hist.popped
    ensures id in t.hist.popped ==> id in t.rows && t.rows[id] == RowOf(Told(map[], s, run, t)[id])
    ensures t.hist.handled[id] == Handlings(Told(map[], s, run, t), id)
  {
    InitIsSafe(s);
    StoryRun(map[], s, run, t);
  }

  // ----- Jobs still on their way to a worker -----

  /** As it was in `start` or as the scheduler reopened it; or newly created. */
  predicate Awaiting(start: map<Id, Row>, id: Id, row: Row) {
    if id in start then
      row == start[id] || (Reopenable(start[id]) && row == Row(Pending, start[id].attempts, start[id].budget))
    else row == Row(Pending, 0, row.budget) && row.budget >= 1
  }

  lemma AwaitingStep(start: map<Id, Row>, s: State, a: Step, id: Id)
    requires Core(s) && Enabled(s, a) && id in Apply(s, a).rows && id !in Apply(s, a).hist.popped
    requires id in s.rows ==> Awaiting(start, id, s.rows[id])
    requires id in start ==> id in s.rows
    ensures Awaiting(start, id, Apply(s, a).rows[id])
  {
    if a.Work? {
      assert Occupied(s, InHand(a.w));
    } else if a.Reopen? {
      assert Occupied(s, InBatch(a.k, 0)) && Agrees(s, InBatch(a.k, 0));
    }
  }

  ghost predicate AllAwait(start: map<Id, Row>, s: State) {
    && start.Keys <= s.rows.Keys
    && forall id :: id in s.rows && id !in s.hist.popped ==> Awaiting(start, id, s.rows[id])
  }

  lemma AllAwaitStep(start: map<Id, Row>, s: State, a: Step)
    requires Core(s) && Enabled(s, a) && AllAwait(start, s)
    ensures AllAwait(start, Apply(s, a))
  {
    var m := Apply(s, a);
    assert s.rows.Keys <= m.rows.Keys && s.hist.popped <= m.hist.popped;
    forall id | id in m.rows && id !in m.hist.popped ensures Awaiting(start, id, m.rows[id]) {
      AwaitingStep(start, s, a, id);
    }
  }

  lemma {:induction false} AwaitingRun(start: map<Id, Row>, s: State, run: seq<Step>, t: State)
    requires Safe(s) && Reaches(s, run, t) && AllAwait(start, s)
    ensures AllAwait(start, t)
    decreases |run|
  {
    if run != [] {
      AllAwaitStep(start, s, run[0]);
      SafeStep(s, run[0]);
      AwaitingRun(start, Apply(s, run[0]), run[1..], t);
    }
  }

  /** The other rows: one that was there at the start is unchanged, or was failed
      with attempts left and is pending again with the same attempts; a new one is
      pending, unattempted and has a budget. */
  lemma OtherRowsWait(s: State, run: seq<Step>, t: State, id: Id)
    requires Init(s) && OneSelector(s) && Reaches(s, run, t) && id in t.rows && id !in t.hist.popped
    ensures id in s.rows ==>
              || t.rows[id] == s.rows[id]
              || (&& s.rows[id].status.Failed? && s.rows[id].attempts < s.rows[id].budget
                  && t.rows[id] == s.rows[id].(status := Pending))
    ensures id !in s.rows ==> t.rows[id].status.Pending? && t.rows[id].attempts == 0 && t.rows[id].budget >= 1
  {
    InitIsSafe(s);
    AwaitingRun(s.rows, s, run, t);
  }
}
