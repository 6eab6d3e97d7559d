/** The pool's counters and its shutdown, over all interleavings. */
module JobAccounting {
  import opened Basics
  import opened Outcomes
  import opened JobProtocol

  /** Inside the increment/decrement section of the worker loop. */
  predicate Inside(w: Worker) {
    (w.Busy? && !w.at.Counting?) || w.Leaving?
  }

  predicate Holding(w: Worker) {
    w.Busy?
  }

  /** Counted by the wait group. */
  predicate Alive(w: Worker) {
    !w.Unlaunched? && !w.Stopped?
  }

  function Count(ws: seq<Worker>, f: Worker -> bool): nat {
    if ws == [] then 0 else Count(ws[1..], f) + if f(ws[0]) then 1 else 0
  }

  function One(b: bool): nat {
    if b then 1 else 0
  }

  lemma {:induction false} CountUpdate(ws: seq<Worker>, i: nat, w: Worker, f: Worker -> bool)
    requires i < |ws|
    ensures Count(ws[i := w], f) == Count(ws, f) - One(f(ws[i])) + One(f(w))
  {
    if i == 0 {
      assert ws[0 := w][1..] == ws[1..];
    } else {
      assert ws[i := w][1..] == ws[1..][i - 1 := w];
      CountUpdate(ws[1..], i - 1, w, f);
    }
  }

  lemma {:induction false} CountBounds(ws: seq<Worker>, f: Worker -> bool)
    ensures Count(ws, f) <= |ws|
    ensures Count(ws, f) == 0 <==> forall i :: 0 <= i < |ws| ==> !f(ws[i])
  {
    if ws != [] {
      CountBounds(ws[1..], f);
      assert forall i :: 0 < i < |ws| ==> ws[i] == ws[1..][i - 1];
      assert forall i :: 0 <= i < |ws[1..]| ==> ws[1..][i] == ws[i + 1];
    }
  }

  ghost predicate Accounts(s: State) {
    && s.stats.active == s.stats.processingJobs == Count(s.workers, Inside)
    && s.hist.dequeued ==
       s.stats.totalProcessed + s.stats.totalFailed + s.hist.dropped + Count(s.workers, Holding)
    && s.life.wg == Count(s.workers, Alive) + One(s.life.collector)
    && s.life.launched <= |s.workers|
    && (forall w :: 0 <= w < |s.workers| ==> (s.workers[w].Unlaunched? <==> s.life.launched <= w))
    && (s.life.started ==> s.life.launched == |s.workers|)
    && (s.life.collector ==> s.life.started)
  }

  /** The worker a step moves, if any. */
  function Actor(s: State, a: Step): nat
    requires Enabled(s, a)
  {
    match a
    case Launch => s.life.launched
    case Quit(w) => w
    case Look(w) => w
    case Poll(w, _) => w
    case Work(w, _, _) => w
    case Leave(w) => w
    case _ => |s.workers|
  }

  lemma OneWorkerMoves(s: State, a: Step)
    requires Accounts(s) && Enabled(s, a)
    ensures var w, ws := Actor(s, a), Apply(s, a).workers;
            && |ws| == |s.workers|
            && (w < |ws| ==> ws == s.workers[w := ws[w]])
            && (w >= |ws| ==> ws == s.workers)
  {
    var w, ws := Actor(s, a), Apply(s, a).workers;
    if w < |ws| {
      assert ws == s.workers[w := ws[w]];
    }
  }

  lemma CountsMove(s: State, a: Step, f: Worker -> bool)
    requires Accounts(s) && Enabled(s, a)
    ensures var w, ws := Actor(s, a), Apply(s, a).workers;
            && |ws| == |s.workers|
            && Count(ws, f) == if w < |ws| then Count(s.workers, f) - One(f(s.workers[w])) + One(f(ws[w]))
                               else Count(s.workers, f)
  {
    OneWorkerMoves(s, a);
    var w, ws := Actor(s, a), Apply(s, a).workers;
    if w < |ws| {
      CountUpdate(s.workers, w, ws[w], f);
    }
  }

  lemma GaugesStep(s: State, a: Step)
    requires Accounts(s) && Enabled(s, a)
    ensures var t := Apply(s, a); t.stats.active == t.stats.processingJobs == Count(t.workers, Inside)
  {
    CountsMove(s, a, Inside);
    CountBounds(s.workers, Inside);
  }

  lemma TotalsStep(s: State, a: Step)
    requires Accounts(s) && Enabled(s, a)
    ensures var t := Apply(s, a);
            t.hist.dequeued ==
            t.stats.totalProcessed + t.stats.totalFailed + t.hist.dropped + Count(t.workers, Holding)
  {
    CountsMove(s, a, Holding);
  }

  lemma WaitGroupStep(s: State, a: Step)
    requires Accounts(s) && Enabled(s, a)
    ensures var t := Apply(s, a); t.life.wg == Count(t.workers, Alive) + One(t.life.collector)
  {
    CountsMove(s, a, Alive);
  }

  lemma AccountsStep(s: State, a: Step)
    requires Accounts(s) && Enabled(s, a)
    ensures Accounts(Apply(s, a))
  {
    GaugesStep(s, a);
    TotalsStep(s, a);
    WaitGroupStep(s, a);
    OneWorkerMoves(s, a);
  }

  lemma {:induction false} AccountsRun(s: State, run: seq<Step>, t: State)
    requires Accounts(s) && Reaches(s, run, t)
    ensures Accounts(t)
    decreases |run|
  {
    if run != [] {
      AccountsStep(s, run[0]);
      AccountsRun(Apply(s, run[0]), run[1..], t);
    }
  }

  lemma InitAccounts(s: State)
    requires Init(s)
    ensures Accounts(s)
  {
    CountBounds(s.workers, Inside);
    CountBounds(s.workers, Holding);
    CountBounds(s.workers, Alive);
  }

  /** Every job `Dequeue` returned is processed, failed, dropped on a
      `MarkProcessing` error, or still held; the two gauges both equal the number
      of workers inside their section, at most the pool size. */
  lemma JobsAreAccountedFor(s: State, run: seq<Step>, t: State)
    requires Init(s) && Reaches(s, run, t)
    ensures t.hist.dequeued ==
            t.stats.totalProcessed + t.stats.totalFailed + t.hist.dropped + Count(t.workers, Holding)
    ensures t.stats.active == t.stats.processingJobs == Count(t.workers, Inside) <= |t.workers|
  {
    InitAccounts(s);
    AccountsRun(s, run, t);
    CountBounds(t.workers, Inside);
  }

  /** The guards of `decrementActiveWorkers` never block: both gauges go down. */
  lemma DecrementNeverBlocked(s: State, run: seq<Step>, t: State, w: nat)
    requires Init(s) && Reaches(s, run, t) && Enabled(t, Leave(w))
    ensures Apply(t, Leave(w)).stats ==
            t.stats.(active := t.stats.active - 1, processingJobs := t.stats.processingJobs - 1)
  {
    InitAccounts(s);
    AccountsRun(s, run, t);
    CountBounds(t.workers, Inside);
    assert Inside(t.workers[w]);
  }

  /** No worker holds a job, now or in any continuation. */
  ghost predicate IdleForever(s: State) {
    forall t :: Leads(s, t) ==> Count(t.workers, Holding) == 0
  }

  /** Every worker has stopped, except that under cancellation some may still be
      on their way to their first look at it. */
  predicate Dormant(s: State) {
    && (s.life.cancelled || s.life.launched == |s.workers|)
    && (forall w :: 0 <= w < |s.workers| ==>
          || s.workers[w].Stopped?
          || (s.life.cancelled && (s.workers[w].Unlaunched? || s.workers[w].Polling?)))
  }

  lemma DormantStep(s: State, a: Step)
    requires Dormant(s) && Enabled(s, a)
    ensures Dormant(Apply(s, a))
    ensures s.life.launched == |s.workers| && (forall w :: 0 <= w < |s.workers| ==> s.workers[w].Stopped?) ==>
              Apply(s, a).workers == s.workers && Apply(s, a).life.launched == s.life.launched
  {
  }

  lemma {:induction false} DormantForGood(s: State, run: seq<Step>, t: State)
    requires Dormant(s) && Reaches(s, run, t)
    ensures Dormant(t)
    ensures s.life.launched == |s.workers| && (forall w :: 0 <= w < |s.workers| ==> s.workers[w].Stopped?) ==>
              t.workers == s.workers
    decreases |run|
  {
    if run != [] {
      DormantStep(s, run[0]);
      DormantForGood(Apply(s, run[0]), run[1..], t);
    }
  }

  lemma DormantIsIdle(s: State)
    requires Dormant(s)
    ensures IdleForever(s)
  {
    forall t | Leads(s, t) ensures Count(t.workers, Holding) == 0 {
      var run :| Reaches(s, run, t);
      DormantForGood(s, run, t);
      CountBounds(t.workers, Holding);
    }
  }

  /** The counterexample: while `Start` has workers left to launch and nothing is
      cancelled, the next worker can take a job. */
  lemma LaunchedAfterStop(m: State) returns (t: State)
    requires Accounts(m) && !m.life.cancelled && m.life.launched < |m.workers|
    ensures Leads(m, t) && m.life.launched < |t.workers| && t.workers[m.life.launched].Busy?
  {
    var id := Above(m.hist.issued);
    var call := Above(m.creating.Keys);
    var w := m.life.launched;
    LeadsNowhere(m);
    var created := Apply(m, Create(call, id, 1, Done));
    LeadsOn(m, m, Create(call, id, 1, Done));
    var queued := Apply(created, Push(call, Done, false));
    LeadsOn(m, created, Push(call, Done, false));
    var launched := Apply(queued, Launch);
    LeadsOn(m, queued, Launch);
    var waiting := Apply(launched, Look(w));
    LeadsOn(m, launched, Look(w));
    t := Apply(waiting, Poll(w, Done));
    LeadsOn(m, waiting, Poll(w, Done));
  }

  /** What the wait group at zero, which is when `Stop` returns nil, is worth: no
      worker ever holds a job again exactly if the pool's context is cancelled or
      `Start` has launched all its workers. */
  lemma StopExactly(s: State, run: seq<Step>, m: State)
    requires Init(s) && Reaches(s, run, m) && m.life.wg == 0
    ensures IdleForever(m) <==> m.life.cancelled || m.life.launched == |m.workers|
  {
    InitAccounts(s);
    AccountsRun(s, run, m);
    if m.life.cancelled || m.life.launched == |m.workers| {
      CountBounds(m.workers, Alive);
      assert Dormant(m);
      DormantIsIdle(m);
    } else {
      var t := LaunchedAfterStop(m);
      CountBounds(t.workers, Holding);
    }
  }

  /** After a completed `Start` the condition holds, and all workers have stopped,
      in that state and in every continuation. */
  lemma StopMeansNoJobHeld(s: State, run: seq<Step>, m: State, rest: seq<Step>, t: State)
    requires Init(s) && Reaches(s, run, m) && m.life.started && m.life.wg == 0
    requires Reaches(m, rest, t)
    ensures forall w :: 0 <= w < |t.workers| ==> t.workers[w].Stopped?
    ensures Count(t.workers, Holding) == 0
  {
    InitAccounts(s);
    AccountsRun(s, run, m);
    CountBounds(m.workers, Alive);
    DormantForGood(m, rest, t);
    CountBounds(t.workers, Holding);
  }

  // ----- A start and a stop with nothing in between -----

  predicate FirstAre(s: State, n: nat, w: Worker, rest: Worker) {
    n <= |s.workers| && forall i :: 0 <= i < |s.workers| ==> s.workers[i] == if i < n then w else rest
  }

  lemma {:induction false} Launches(s: State, m: State, n: nat) returns (t: State)
    requires Leads(s, m) && FirstAre(m, n, Polling, Unlaunched) && m.life == Life(n, false, false, false, n)
    ensures Leads(s, t) && t == m.(workers := t.workers, life := t.life)
    ensures |t.workers| == |m.workers| && FirstAre(t, |t.workers|, Polling, Unlaunched)
    ensures t.life == Life(|t.workers|, false, false, false, |t.workers|)
    decreases |m.workers| - n
  {
    if n == |m.workers| {
      t := m;
    } else {
      LeadsOn(s, m, Launch);
      t := Launches(s, Apply(m, Launch), n + 1);
    }
  }

  lemma {:induction false} Quits(s: State, m: State, n: nat) returns (t: State)
    requires Leads(s, m) && FirstAre(m, n, Stopped, Polling)
    requires m.life == Life(|m.workers|, true, true, true, |m.workers| - n + 1)
    ensures Leads(s, t) && t == m.(workers := t.workers, life := t.life)
    ensures |t.workers| == |m.workers| && FirstAre(t, |t.workers|, Stopped, Polling)
    ensures t.life == Life(|t.workers|, true, true, true, 1)
    decreases |m.workers| - n
  {
    if n == |m.workers| {
      t := m;
    } else {
      LeadsOn(s, m, Quit(n));
      t := Quits(s, Apply(m, Quit(n)), n + 1);
    }
  }

  /** `Start` launches every worker and the collector, each counted by the wait group;
      `Stop` cancels, they all return and the wait group is empty, stores untouched. */
  lemma StartThenStop(s: State) returns (up: State, down: State)
    requires Init(s)
    ensures Leads(s, up) && up == s.(workers := up.workers, life := up.life)
    ensures |up.workers| == |s.workers| && (forall w :: 0 <= w < |up.workers| ==> up.workers[w] == Polling)
    ensures up.life == Life(|s.workers|, true, true, false, |s.workers| + 1)
    ensures Leads(up, down) && down == up.(workers := down.workers, life := down.life)
    ensures |down.workers| == |s.workers| && (forall w :: 0 <= w < |down.workers| ==> down.workers[w] == Stopped)
    ensures down.life == Life(|s.workers|, true, false, true, 0)
  {
    LeadsNowhere(s);
    var launched := Launches(s, s, 0);
    LeadsOn(s, launched, FinishStart);
    up := Apply(launched, FinishStart);
    LeadsNowhere(up);
    LeadsOn(up, up, Cancel);
    var quit := Quits(up, Apply(up, Cancel), 0);
    LeadsOn(up, quit, CollectorQuits);
    down := Apply(quit, CollectorQuits);
  }
}
