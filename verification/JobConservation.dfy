/** Which failing store calls lose a job, exactly. A job is lost when its row
    still says pending or processing and nothing in the system carries it any
    more: no queue entry, no call, no batch, no worker that has yet to write it. */
module JobConservation {
  import opened JobStore
  import opened JobProtocol
  import opened JobSafety

  /** The copy at `p` is still going to be worked on or written back. */
  predicate Working(s: State, p: Place)
    requires Occupied(s, p)
  {
    p.InHand? ==>
      BeforeHandler(s.workers[p.w].at) || s.workers[p.w].at.Completing? || s.workers[p.w].at.Failing?
  }

  predicate CarriedAt(s: State, p: Place, id: Id) {
    Occupied(s, p) && Working(s, p) && JobAt(s, p).id == id
  }

  ghost predicate Carried(s: State, id: Id) {
    exists p :: CarriedAt(s, p, id)
  }

  predicate Open(s: State, id: Id) {
    id in s.rows && (s.rows[id].status.Pending? || s.rows[id].status.Processing?)
  }

  ghost predicate Lost(s: State, id: Id) {
    Open(s, id) && !Carried(s, id)
  }

  datatype Victim = Nobody | Victim(id: Id)

  /** The job a step loses: a created row whose insert was not acknowledged, a
      refused push, an unacknowledged pop, any error at `MarkProcessing`, a refused
      write of the final row state, and an unacknowledged reopening. */
  function Loses(s: State, a: Step): Victim
    requires Enabled(s, a)
  {
    match a
    case Create(_, id, _, o) => if o.Unacknowledged? then Victim(id) else Nobody
    case Push(call, o, _) => if o.Refused? then Victim(s.creating[call].id) else Nobody
    case Poll(_, o) =>
      if o.Unacknowledged? && s.queue != [] then Victim(s.queue[|s.queue| - 1].id) else Nobody
    case Work(w, o, _) =>
      var at := s.workers[w].at;
      if (at.Marking? && o.Errored()) || ((at.Completing? || at.Failing?) && o.Refused?)
      then Victim(s.workers[w].job.id) else Nobody
    case Reopen(k, o) => if o.Unacknowledged? then Victim(s.schedulers[k].batch[0].id) else Nobody
    case Repush(k, o, _) => if o.Refused? then Victim(s.schedulers[k].batch[0].id) else Nobody
    case _ => Nobody
  }

  // ----- Where copies go -----

  /** Where step `a` leaves the copy it finds at `p`, if it keeps it. */
  function Destination(s: State, a: Step, p: Place): Place {
    match a
    case Push(call, o, _) =>
      if !o.Applied() then p
      else if p == InCreate(call) then InQueue(0)
      else if p.InQueue? then InQueue(p.i + 1) else p
    case Poll(w, o) =>
      if o.Done? && s.queue != [] && p == InQueue(|s.queue| - 1) then InHand(w) else p
    case Reopen(k, o) =>
      if !o.Done? && p.InBatch? && p.k == k && p.i > 0 then InBatch(k, p.i - 1) else p
    case Repush(k, o, _) =>
      if p.InBatch? && p.k == k then if p.i > 0 then InBatch(k, p.i - 1) else InQueue(0)
      else if o.Applied() && p.InQueue? then InQueue(p.i + 1) else p
    case _ => p
  }

  /** The step ends the copy at `p` with its row settled: a final write that was
      applied, or a refused reopening, which leaves the row selectable. */
  predicate Settles(s: State, a: Step, p: Place)
    requires Enabled(s, a)
  {
    match a
    case Work(w, o, _) => p == InHand(w) && o.Applied() && (s.workers[w].at.Completing? || s.workers[w].at.Failing?)
    case Reopen(k, o) => p == InBatch(k, 0) && o.Refused?
    case _ => false
  }

  lemma CarriedOn(s: State, a: Step, p: Place, id: Id)
    requires Core(s) && Enabled(s, a) && CarriedAt(s, p, id)
    requires Loses(s, a) != Victim(id) && !Settles(s, a, p)
    ensures CarriedAt(Apply(s, a), Destination(s, a, p), id)
  {
    match p
    case InHand(w) => CarriedOnByHand(s, a, w, id);
    case InQueue(i) => CarriedOnInQueue(s, a, i, id);
    case InBatch(k, i) => CarriedOnInBatch(s, a, k, i, id);
    case InCreate(_) =>
  }

  lemma CarriedOnInQueue(s: State, a: Step, i: nat, id: Id)
    requires Core(s) && Enabled(s, a) && CarriedAt(s, InQueue(i), id) && Loses(s, a) != Victim(id)
    ensures CarriedAt(Apply(s, a), Destination(s, a, InQueue(i)), id)
  {
  }

  lemma CarriedOnInBatch(s: State, a: Step, k: nat, i: nat, id: Id)
    requires Core(s) && Enabled(s, a) && CarriedAt(s, InBatch(k, i), id)
    requires Loses(s, a) != Victim(id) && !Settles(s, a, InBatch(k, i))
    ensures CarriedAt(Apply(s, a), Destination(s, a, InBatch(k, i)), id)
  {
  }

  lemma CarriedOnByHand(s: State, a: Step, w: nat, id: Id)
    requires Core(s) && Enabled(s, a) && CarriedAt(s, InHand(w), id)
    requires Loses(s, a) != Victim(id) && !Settles(s, a, InHand(w))
    ensures CarriedAt(Apply(s, a), InHand(w), id)
  {
    if !ActsOn(s, a, w) {
      WorkerFrame(s, a, w);
    }
  }

  lemma SettledRow(s: State, a: Step, p: Place)
    requires Core(s) && Enabled(s, a) && Occupied(s, p) && Settles(s, a, p)
    ensures !Open(Apply(s, a), JobAt(s, p).id)
  {
    assert Agrees(s, p);
  }

  /** A copy that is being carried after the step was being carried before it. */
  lemma CarriedBefore(s: State, a: Step, p: Place, id: Id)
    requires Core(s) && Enabled(s, a) && !Copying(a) && CarriedAt(Apply(s, a), p, id)
    ensures CarriedAt(s, Origin(s, a, p), id) && Loses(s, a) != Victim(id)
  {
    OriginKeepsJob(s, a, p);
    WorkingBefore(s, a, p);
    LoserGone(s, a, p);
  }

  lemma WorkingBefore(s: State, a: Step, p: Place)
    requires Core(s) && Enabled(s, a) && !Copying(a)
    requires Occupied(Apply(s, a), p) && Working(Apply(s, a), p)
    requires Occupied(s, Origin(s, a, p))
    ensures Working(s, Origin(s, a, p))
  {
    if p.InHand? && !ActsOn(s, a, p.w) {
      WorkerFrame(s, a, p.w);
    }
  }

  /** The step that loses a job leaves no working copy of it. */
  lemma LoserGone(s: State, a: Step, p: Place)
    requires Core(s) && Enabled(s, a) && !Copying(a)
    requires Occupied(Apply(s, a), p) && Working(Apply(s, a), p) && Kept(s, a, p)
    ensures Loses(s, a) != Victim(JobAt(Apply(s, a), p).id)
  {
    var o := Origin(s, a, p);
    match a
    case Push(call, _, _) => LoserIs(s, o, InCreate(call));
    case Poll(_, _) =>
      if s.queue != [] {
        LoserIs(s, o, InQueue(|s.queue| - 1));
      }
    case Work(_, _, _) => LoserLeaves(s, a, p);
    case Reopen(k, _) => LoserIs(s, o, InBatch(k, 0));
    case Repush(k, _, _) => LoserIs(s, o, InBatch(k, 0));
    case _ =>
  }

  lemma LoserLeaves(s: State, a: Step, p: Place)
    requires Core(s) && Enabled(s, a) && a.Work?
    requires Occupied(Apply(s, a), p) && Working(Apply(s, a), p) && Kept(s, a, p)
    ensures Loses(s, a) != Victim(JobAt(Apply(s, a), p).id)
  {
    LoserIs(s, p, InHand(a.w));
  }

  lemma LoserIs(s: State, p: Place, q: Place)
    requires UniqueCopies(s) && Occupied(s, p) && Occupied(s, q)
    ensures JobAt(s, p).id == JobAt(s, q).id ==> p == q
  {
  }

  // ----- One step -----

  /** A lost job stays lost, its row as it is. */
  lemma LostStays(s: State, a: Step, id: Id)
    requires Core(s) && Enabled(s, a) && Lost(s, id)
    ensures Lost(Apply(s, a), id) && Apply(s, a).rows[id] == s.rows[id]
  {
    forall p | Occupied(s, p) && Writes(s, a, p)
      ensures JobAt(s, p).id != id
    {
      assert JobAt(s, p).id == id ==> CarriedAt(s, p, id);
    }
    RowsFrame(s, a, id);
    forall p | CarriedAt(Apply(s, a), p, id)
      ensures false
    {
      if Copying(a) {
        CopiesAreNotLost(s, a, p, id);
      } else {
        CarriedBefore(s, a, p, id);
      }
    }
  }

  lemma CopiesAreNotLost(s: State, a: Step, p: Place, id: Id)
    requires Core(s) && Enabled(s, a) && Copying(a) && CarriedAt(Apply(s, a), p, id) && Open(s, id)
    ensures CarriedAt(s, p, id)
  {
  }

  lemma VictimIsLost(s: State, a: Step, id: Id)
    requires Core(s) && Enabled(s, a) && Loses(s, a) == Victim(id)
    ensures Lost(Apply(s, a), id)
  {
    VictimIsOpen(s, a, id);
    forall p | CarriedAt(Apply(s, a), p, id)
      ensures false
    {
      if a.Create? {
        assert CarriedAt(s, p, id) && Agrees(s, p);
      } else {
        CarriedBefore(s, a, p, id);
      }
    }
  }

  lemma VictimIsOpen(s: State, a: Step, id: Id)
    requires Core(s) && Enabled(s, a) && Loses(s, a) == Victim(id)
    ensures Open(Apply(s, a), id)
  {
    match a
    case Push(call, _, _) => assert Agrees(s, InCreate(call));
    case Poll(_, _) => assert Agrees(s, InQueue(|s.queue| - 1));
    case Work(w, _, _) => assert Agrees(s, InHand(w));
    case Reopen(k, _) => assert Agrees(s, InBatch(k, 0));
    case Repush(k, _, _) => assert Agrees(s, InBatch(k, 0));
    case _ =>
  }

  /** Workers only write rows that are open already. */
  lemma WorkOpensNothing(s: State, a: Step, id: Id)
    requires Core(s) && Enabled(s, a) && a.Work? && Open(Apply(s, a), id)
    ensures Open(s, id)
  {
    assert Agrees(s, InHand(a.w));
  }

  /** A row opened by a step, newly created or reopened, is carried. */
  lemma OpenedIsCarried(s: State, a: Step, id: Id)
    requires Core(s) && Enabled(s, a) && !a.Work? && Loses(s, a) != Victim(id)
    requires !Open(s, id) && Open(Apply(s, a), id)
    ensures Carried(Apply(s, a), id)
  {
    match a
    case Create(call, _, _, _) => assert CarriedAt(Apply(s, a), InCreate(call), id);
    case Reopen(k, _) => assert CarriedAt(Apply(s, a), InBatch(k, 0), id);
    case _ =>
  }

  /** One step loses exactly its victim. */
  lemma LostExactly(s: State, a: Step, id: Id)
    requires Core(s) && Enabled(s, a)
    ensures Lost(Apply(s, a), id) <==> Lost(s, id) || Loses(s, a) == Victim(id)
  {
    if Lost(s, id) {
      LostStays(s, a, id);
    } else if Loses(s, a) == Victim(id) {
      VictimIsLost(s, a, id);
    } else if Lost(Apply(s, a), id) {
      if a.Work? {
        WorkOpensNothing(s, a, id);
      }
      if Open(s, id) {
        var p :| CarriedAt(s, p, id);
        if Settles(s, a, p) {
          SettledRow(s, a, p);
        } else {
          CarriedOn(s, a, p, id);
        }
      } else {
        OpenedIsCarried(s, a, id);
      }
    }
  }

  // ----- Whole runs -----

  /** Some step of the run loses the job. */
  ghost predicate Drops(s: State, run: seq<Step>, id: Id)
    decreases |run|
  {
    run != [] && Enabled(s, run[0]) &&
    (Loses(s, run[0]) == Victim(id) || Drops(Apply(s, run[0]), run[1..], id))
  }

  /** Over whole runs a job is lost if and only if it was lost at the start or one
      of the listed calls failed on it; every other failing call is harmless. */
  lemma {:induction false} JobsLostExactly(s: State, run: seq<Step>, t: State, id: Id)
    requires Safe(s) && Reaches(s, run, t)
    ensures Lost(t, id) <==> Lost(s, id) || Drops(s, run, id)
    decreases |run|
  {
    if run != [] {
      SafeStep(s, run[0]);
      LostExactly(s, run[0], id);
      JobsLostExactly(Apply(s, run[0]), run[1..], t, id);
    }
  }
}
