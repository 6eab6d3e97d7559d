/** The SQS retry loop: consumers take messages, report failures and re-send, with
    rounds on one redelivered message overlapping. How many copies of a job there
    can be and how often it is re-sent, and that these bounds are reached. */
module SqsRetry {
  import opened Basics
  import opened Outcomes
  import opened SqsQueue

  /** Between receiving a message and reporting on it, or between deleting it and
      sending the job again. */
  datatype Stage = Holding | Sending(seconds: int)

  datatype Flight = Flight(receipt: Receipt, job: Job, stage: Stage)

  /** `sent` counts the re-sends per job. */
  datatype Broker = Broker(
    messages: map<Receipt, Message>,
    flights: map<nat, Flight>,
    sent: multiset<Id>,
    platform: int)

  datatype Step =
    | Take(f: nat, receipt: Receipt, url: string)
    | Delete(f: nat, delay: int, o: Outcome)
    | Send(f: nat, o: Outcome, next: Receipt)
    | Complete(f: nat, o: Outcome)
    | Drop(f: nat)

  predicate Unused(b: Broker, r: Receipt) {
    r !in b.messages && forall f :: f in b.flights ==> b.flights[f].receipt != r
  }

  /** A message still in the queue can be taken at any time, also while another
      consumer holds it. */
  predicate Enabled(b: Broker, a: Step) {
    match a
    case Take(f, receipt, _) =>
      f !in b.flights && receipt in b.messages && b.messages[receipt].job.payload.Some?
    case Delete(f, _, _) => f in b.flights && b.flights[f].stage.Holding?
    case Send(f, _, next) => f in b.flights && b.flights[f].stage.Sending? && Unused(b, next)
    case Complete(f, _) => f in b.flights && b.flights[f].stage.Holding?
    case Drop(f) => f in b.flights
  }

  function Without(b: Broker, r: Receipt, o: Outcome): Broker {
    if o.Applied() then b.(messages := b.messages - {r}) else b
  }

  /** `Delete` and `Send` are the two halves of `MarkFailedWithMetadata`, `Complete`
      is `MarkCompletedWithMetadata`, and at `Drop` the consumer goes away. */
  function Apply(b: Broker, a: Step): Broker
    requires Enabled(b, a)
  {
    match a
    case Take(f, receipt, url) =>
      b.(flights := b.flights[f := Flight(receipt, Tagged(b.messages[receipt].job, receipt, url), Holding)])
    case Delete(f, delay, o) =>
      var x := b.flights[f];
      Without(b, x.receipt, o).(
        flights := if o.Done? && Resends(x.job, delay)
                   then b.flights[f := x.(stage := Sending(Backoff.DelaySeconds(delay, b.platform)))]
                   else b.flights - {f})
    case Send(f, o, next) =>
      var x := b.flights[f];
      b.(messages := if o.Applied() then b.messages[next := Message(Retried(x.job), x.stage.seconds)] else b.messages,
         flights := b.flights - {f},
         sent := if o.Applied() then b.sent + multiset{x.job.id} else b.sent)
    case Complete(f, o) => Without(b, b.flights[f].receipt, o).(flights := b.flights - {f})
    case Drop(f) => b.(flights := b.flights - {f})
  }

  /** The consumers that hold one message. */
  function Holders(b: Broker, r: Receipt): set<nat> {
    set f | f in b.flights && b.flights[f].receipt == r
  }

  ghost predicate Crowd(b: Broker, limit: nat) {
    forall r :: |Holders(b, r)| <= limit
  }

  /** `run` leads from `b` to `c`, with at most `limit` consumers on any one
      message at any time. */
  ghost predicate Plays(b: Broker, run: seq<Step>, c: Broker, limit: nat)
    decreases |run|
  {
    && Crowd(b, limit)
    && if run == [] then b == c
       else Enabled(b, run[0]) && Plays(Apply(b, run[0]), run[1..], c, limit)
  }

  // ----- Sums over maps -----

  ghost function Sum<K(!new)>(m: map<K, nat>): nat
    decreases |m|
  {
    if m == map[] then 0
    else
      var k :| k in m;
      m[k] + Sum(m - {k})
  }

  lemma {:induction false} SumWithout<K(!new)>(m: map<K, nat>, k: K)
    requires k in m
    ensures Sum(m) == m[k] + Sum(m - {k})
    decreases |m|
  {
    var j :| j in m && Sum(m) == m[j] + Sum(m - {j});
    if j != k {
      assert m - {j} - {k} == m - {k} - {j};
      SumWithout(m - {j}, k);
      SumWithout(m - {k}, j);
    }
  }

  lemma SumWith<K(!new)>(m: map<K, nat>, k: K, n: nat)
    requires k !in m
    ensures Sum(m[k := n]) == n + Sum(m)
  {
    SumWithout(m[k := n], k);
    assert m[k := n] - {k} == m;
  }

  function Constant<K(!new)>(keys: set<K>, n: nat): map<K, nat> {
    map k | k in keys :: n
  }

  lemma OneMore(n: nat, x: nat)
    ensures (n + 1) * x == n * x + x
  {
  }

  /** Entries of equal value added to a map. */
  lemma {:induction false} SumAdd<K(!new)>(m: map<K, nat>, keys: set<K>, n: nat)
    requires m.Keys !! keys
    ensures Sum(m + Constant(keys, n)) == Sum(m) + |keys| * n
    decreases keys
  {
    if keys == {} {
      assert m + Constant(keys, n) == m;
    } else {
      var k :| k in keys;
      var fewer := keys - {k};
      SumAdd(m, fewer, n);
      SumWith(m + Constant(fewer, n), k, n);
      assert m + Constant(keys, n) == (m + Constant(fewer, n))[k := n];
      OneMore(|fewer|, n);
    }
  }

  lemma {:induction false} SumAtLeast<K(!new)>(m: map<K, nat>)
    requires forall k :: k in m ==> m[k] >= 1
    ensures |m| <= Sum(m)
    decreases |m|
  {
    if m != map[] {
      var k :| k in m;
      SumWithout(m, k);
      SumAtLeast(m - {k});
    }
  }

  // ----- What a message and a pending re-send are worth -----

  /** Attempts a job has left. */
  function Left(job: Job): nat {
    if job.attempts < job.maxAttempts then job.maxAttempts - job.attempts else 0
  }

  /** `base` for every message in the end, `paid` for every re-send on the way. */
  datatype Scale = Scale(base: nat, paid: nat, limit: nat)

  /** A message can become `limit` pending re-sends, each of those one re-send and
      one message with an attempt less. */
  function InQueue(w: Scale, left: nat): nat
    decreases left, 1
  {
    if left == 0 then w.base else w.limit * InHand(w, left)
  }

  function InHand(w: Scale, left: nat): nat
    decreases left, 0
  {
    if left == 0 then 0 else w.paid + InQueue(w, left - 1)
  }

  ghost function Queued(b: Broker, id: Id, w: Scale): map<Receipt, nat> {
    map r | r in b.messages && b.messages[r].job.id == id :: InQueue(w, Left(b.messages[r].job))
  }

  /** Consumers whose message is gone: those that may still send. */
  ghost function Pending(b: Broker, id: Id, w: Scale): map<nat, nat> {
    map f | f in b.flights && b.flights[f].job.id == id && b.flights[f].receipt !in b.messages ::
      InHand(w, Left(b.flights[f].job))
  }

  ghost function Worth(b: Broker, id: Id, w: Scale): nat {
    w.paid * b.sent[id] + Sum(Queued(b, id, w)) + Sum(Pending(b, id, w))
  }

  /** A consumer's job is that of its message, while that is in the queue; one that
      is sending has deleted its message and has an attempt left. */
  ghost predicate Consistent(b: Broker) {
    forall f :: f in b.flights ==>
      var x := b.flights[f];
      && x.job.payload.Some?
      && (x.receipt in b.messages ==>
            && b.messages[x.receipt].job.id == x.job.id
            && Left(b.messages[x.receipt].job) == Left(x.job))
      && (x.stage.Sending? ==> x.receipt !in b.messages && Left(x.job) >= 1)
  }

  lemma ConsistentStep(b: Broker, a: Step)
    requires Consistent(b) && Enabled(b, a)
    ensures Consistent(Apply(b, a))
  {
  }

  lemma WithoutQueued(b: Broker, r: Receipt, id: Id, w: Scale)
    requires r in b.messages
    ensures Queued(b.(messages := b.messages - {r}), id, w) == Queued(b, id, w) - {r}
  {
  }

  lemma WithoutPending(b: Broker, r: Receipt, id: Id, w: Scale)
    requires Consistent(b) && r in b.messages && b.messages[r].job.id == id
    ensures Pending(b, id, w).Keys !! Holders(b, r)
    ensures Pending(b.(messages := b.messages - {r}), id, w) ==
            Pending(b, id, w) + Constant(Holders(b, r), InHand(w, Left(b.messages[r].job)))
  {
    var c := b.(messages := b.messages - {r});
    assert Pending(c, id, w).Keys == Pending(b, id, w).Keys + Holders(b, r);
  }

  lemma WithoutOther(b: Broker, r: Receipt, id: Id, w: Scale)
    requires Consistent(b) && r in b.messages && b.messages[r].job.id != id
    ensures Pending(b.(messages := b.messages - {r}), id, w) == Pending(b, id, w)
  {
  }

  /** Deleting a message turns its worth into that of its holders' re-sends. */
  lemma WithoutLosesWorth(b: Broker, r: Receipt, id: Id, w: Scale)
    requires Consistent(b) && |Holders(b, r)| <= w.limit && r in b.messages
    ensures Worth(b.(messages := b.messages - {r}), id, w) <= Worth(b, id, w)
  {
    WithoutQueued(b, r, id, w);
    if b.messages[r].job.id == id {
      var left := Left(b.messages[r].job);
      SumWithout(Queued(b, id, w), r);
      WithoutPending(b, r, id, w);
      SumAdd(Pending(b, id, w), Holders(b, r), InHand(w, left));
      HoldersWorth(|Holders(b, r)|, w, left);
    } else {
      WithoutOther(b, r, id, w);
      assert Queued(b, id, w) - {r} == Queued(b, id, w);
    }
  }

  lemma HoldersWorth(n: nat, w: Scale, left: nat)
    requires n <= w.limit
    ensures n * InHand(w, left) <= InQueue(w, left)
  {
    if left > 0 {
      assert (w.limit - n) * InHand(w, left) >= 0;
    }
  }

  lemma EndingLosesWorth(b: Broker, f: nat, id: Id, w: Scale)
    ensures Worth(b.(flights := b.flights - {f}), id, w) <= Worth(b, id, w)
  {
    var c := b.(flights := b.flights - {f});
    assert Queued(c, id, w) == Queued(b, id, w);
    assert Pending(c, id, w) == Pending(b, id, w) - {f};
    if f in Pending(b, id, w) {
      SumWithout(Pending(b, id, w), f);
    } else {
      assert Pending(c, id, w) == Pending(b, id, w);
    }
  }

  lemma StageKeepsWorth(b: Broker, f: nat, stage: Stage, id: Id, w: Scale)
    requires f in b.flights
    ensures Worth(b.(flights := b.flights[f := b.flights[f].(stage := stage)]), id, w) == Worth(b, id, w)
  {
    var c := b.(flights := b.flights[f := b.flights[f].(stage := stage)]);
    assert Queued(c, id, w) == Queued(b, id, w);
    assert Pending(c, id, w) == Pending(b, id, w);
  }

  lemma WithoutWorth(b: Broker, r: Receipt, o: Outcome, id: Id, w: Scale)
    requires Consistent(b) && Crowd(b, w.limit)
    ensures Worth(Without(b, r, o), id, w) <= Worth(b, id, w)
  {
    if o.Applied() && r in b.messages {
      WithoutLosesWorth(b, r, id, w);
    } else {
      assert Without(b, r, o) == b;
    }
  }

  lemma WorthDelete(b: Broker, a: Step, id: Id, w: Scale)
    requires Consistent(b) && Crowd(b, w.limit) && Enabled(b, a) && (a.Delete? || a.Complete?)
    ensures Worth(Apply(b, a), id, w) <= Worth(b, id, w)
  {
    var x := b.flights[a.f];
    var m := Without(b, x.receipt, a.o);
    WithoutWorth(b, x.receipt, a.o, id, w);
    if a.Delete? && a.o.Done? && Resends(x.job, a.delay) {
      StageKeepsWorth(m, a.f, Sending(Backoff.DelaySeconds(a.delay, b.platform)), id, w);
    } else {
      EndingLosesWorth(m, a.f, id, w);
    }
  }

  lemma SentQueued(b: Broker, a: Step, id: Id, w: Scale)
    requires Consistent(b) && Enabled(b, a) && a.Send? && a.o.Applied()
    ensures var job := b.flights[a.f].job;
            && a.next !in Queued(b, id, w)
            && Queued(Apply(b, a), id, w) ==
               if job.id == id then Queued(b, id, w)[a.next := InQueue(w, Left(job) - 1)] else Queued(b, id, w)
  {
    assert Left(Retried(b.flights[a.f].job)) == Left(b.flights[a.f].job) - 1;
  }

  lemma SentPending(b: Broker, a: Step, id: Id, w: Scale)
    requires Consistent(b) && Enabled(b, a) && a.Send? && a.o.Applied()
    ensures Pending(Apply(b, a), id, w) == Pending(b, id, w) - {a.f}
    ensures a.f in Pending(b, id, w) <==> b.flights[a.f].job.id == id
  {
  }

  lemma SentQueuedSum(b: Broker, a: Step, id: Id, w: Scale)
    requires Consistent(b) && Enabled(b, a) && a.Send? && a.o.Applied() && b.flights[a.f].job.id == id
    ensures Sum(Queued(Apply(b, a), id, w)) == Sum(Queued(b, id, w)) + InQueue(w, Left(b.flights[a.f].job) - 1)
  {
    SentQueued(b, a, id, w);
    SumWith(Queued(b, id, w), a.next, InQueue(w, Left(b.flights[a.f].job) - 1));
  }

  lemma SentPendingSum(b: Broker, a: Step, id: Id, w: Scale)
    requires Consistent(b) && Enabled(b, a) && a.Send? && a.o.Applied() && b.flights[a.f].job.id == id
    ensures Sum(Pending(Apply(b, a), id, w)) + w.paid + InQueue(w, Left(b.flights[a.f].job) - 1) ==
            Sum(Pending(b, id, w))
  {
    SentPending(b, a, id, w);
    SumWithout(Pending(b, id, w), a.f);
  }

  /** A re-send is worth what the pending one was. */
  lemma WorthSent(b: Broker, a: Step, id: Id, w: Scale)
    requires Consistent(b) && Enabled(b, a) && a.Send? && a.o.Applied() && b.flights[a.f].job.id == id
    ensures Worth(Apply(b, a), id, w) == Worth(b, id, w)
  {
    SentQueuedSum(b, a, id, w);
    SentPendingSum(b, a, id, w);
    WorthCarriedOver(b, Apply(b, a), id, w, InQueue(w, Left(b.flights[a.f].job) - 1));
  }

  lemma WorthCarriedOver(b: Broker, c: Broker, id: Id, w: Scale, n: nat)
    requires c.sent[id] == b.sent[id] + 1
    requires Sum(Queued(c, id, w)) == Sum(Queued(b, id, w)) + n
    requires Sum(Pending(c, id, w)) + w.paid + n == Sum(Pending(b, id, w))
    ensures Worth(c, id, w) == Worth(b, id, w)
  {
    assert w.paid * (b.sent[id] + 1) == w.paid * b.sent[id] + w.paid;
  }

  lemma WorthSend(b: Broker, a: Step, id: Id, w: Scale)
    requires Consistent(b) && Enabled(b, a) && a.Send?
    ensures Worth(Apply(b, a), id, w) <= Worth(b, id, w)
  {
    if a.o.Refused? {
      EndingLosesWorth(b, a.f, id, w);
    } else if b.flights[a.f].job.id == id {
      WorthSent(b, a, id, w);
    } else {
      SentQueued(b, a, id, w);
      SentPending(b, a, id, w);
      assert Pending(b, id, w) - {a.f} == Pending(b, id, w);
    }
  }

  lemma WorthStep(b: Broker, a: Step, id: Id, w: Scale)
    requires Consistent(b) && Crowd(b, w.limit) && Enabled(b, a)
    ensures Worth(Apply(b, a), id, w) <= Worth(b, id, w)
  {
    match a
    case Take(_, _, _) =>
      assert Queued(Apply(b, a), id, w) == Queued(b, id, w);
      assert Pending(Apply(b, a), id, w) == Pending(b, id, w);
    case Send(_, _, _) => WorthSend(b, a, id, w);
    case Drop(f) => EndingLosesWorth(b, f, id, w);
    case _ => WorthDelete(b, a, id, w);
  }

  /** No step adds worth: over any run in which at most `limit` consumers hold one
      message at a time, re-sends so far, messages and pending re-sends together
      are worth no more than at the start. */
  lemma {:induction false} ResendsBounded(b: Broker, run: seq<Step>, c: Broker, id: Id, w: Scale)
    requires Consistent(b) && Plays(b, run, c, w.limit)
    ensures Consistent(c) && Worth(c, id, w) <= Worth(b, id, w)
    decreases |run|
  {
    if run != [] {
      WorthStep(b, run[0], id, w);
      ConsistentStep(b, run[0]);
      ResendsBounded(Apply(b, run[0]), run[1..], c, id, w);
    }
  }

  // ----- From a queue with one copy of a job -----

  function Power(x: nat, n: nat): nat {
    if n == 0 then 1 else x * Power(x, n - 1)
  }

  /** x + x^2 + ... + x^n. */
  function Series(x: nat, n: nat): nat {
    if n == 0 then 0 else Series(x, n - 1) + Power(x, n)
  }

  lemma {:induction false} CopiesWorth(limit: nat, left: nat)
    ensures InQueue(Scale(1, 0, limit), left) == Power(limit, left)
  {
    if left > 0 {
      CopiesWorth(limit, left - 1);
    }
  }

  lemma {:induction false} SeriesShift(x: nat, n: nat)
    requires n > 0
    ensures Series(x, n) == x * (1 + Series(x, n - 1))
  {
    if n > 1 {
      SeriesShift(x, n - 1);
      assert x * (1 + (Series(x, n - 2) + Power(x, n - 1))) == x * (1 + Series(x, n - 2)) + x * Power(x, n - 1);
    } else {
      assert Power(x, 1) == x * Power(x, 0);
    }
  }

  lemma {:induction false} ResendsWorth(limit: nat, left: nat)
    ensures InQueue(Scale(0, 1, limit), left) == Series(limit, left)
  {
    if left > 0 {
      ResendsWorth(limit, left - 1);
      SeriesShift(limit, left);
    }
  }

  /** One consumer at a time: one copy, and one re-send per attempt left. */
  lemma {:induction false} OneAtATime(left: nat)
    ensures Power(1, left) == 1 && Series(1, left) == left
  {
    if left > 0 {
      OneAtATime(left - 1);
    }
  }

  function Copies(b: Broker, id: Id): set<Receipt> {
    set r | r in b.messages && b.messages[r].job.id == id
  }

  lemma {:induction false} AllCounted(b: Broker, id: Id, limit: nat)
    requires limit >= 1
    ensures |Copies(b, id)| <= Worth(b, id, Scale(1, 0, limit))
  {
    var q := Queued(b, id, Scale(1, 0, limit));
    forall r | r in q ensures q[r] >= 1 {
      CopiesWorth(limit, Left(b.messages[r].job));
      PowerPositive(limit, Left(b.messages[r].job));
    }
    SumAtLeast(q);
    assert q.Keys == Copies(b, id);
    assert |q| == |q.Keys|;
  }

  lemma {:induction false} PowerPositive(x: nat, n: nat)
    requires x >= 1
    ensures Power(x, n) >= 1
  {
    if n > 0 {
      PowerPositive(x, n - 1);
    }
  }

  /** A later copy of the job `start`: the same payload apart from the metadata, the
      same budget, and attempts that have only grown, within the budget. */
  predicate Descends(job: Job, start: Job) {
    && job.id == start.id && Content(job) == Content(start) && job.maxAttempts == start.maxAttempts
    && start.attempts <= job.attempts
    && (job.attempts == start.attempts || job.attempts <= start.maxAttempts)
  }

  ghost predicate AllDescend(b: Broker, start: Job) {
    && (forall r :: r in b.messages && b.messages[r].job.id == start.id ==> Descends(b.messages[r].job, start))
    && (forall f :: f in b.flights && b.flights[f].job.id == start.id ==>
          && Descends(b.flights[f].job, start)
          && (b.flights[f].stage.Sending? ==> b.flights[f].job.attempts < start.maxAttempts))
  }

  lemma TagDescends(job: Job, receipt: Receipt, url: string, start: Job)
    requires job.payload.Some? && Descends(job, start)
    ensures Descends(Tagged(job, receipt, url), start)
  {
    assert Tagged(job, receipt, url).payload.value - {METADATA} == job.payload.value - {METADATA};
  }

  lemma DescendStep(b: Broker, a: Step, start: Job)
    requires AllDescend(b, start) && Enabled(b, a)
    ensures AllDescend(Apply(b, a), start)
  {
    if a.Take? && b.messages[a.receipt].job.id == start.id {
      TagDescends(b.messages[a.receipt].job, a.receipt, a.url, start);
    }
  }

  lemma {:induction false} DescendRun(b: Broker, run: seq<Step>, c: Broker, limit: nat, start: Job)
    requires Plays(b, run, c, limit) && AllDescend(b, start)
    ensures AllDescend(c, start)
    decreases |run|
  {
    if run != [] {
      DescendStep(b, run[0], start);
      DescendRun(Apply(b, run[0]), run[1..], c, limit, start);
    }
  }

  /** A job that is on the queue once, with nobody holding it yet. */
  ghost predicate Alone(b: Broker, r: Receipt) {
    && b.flights == map[] && b.sent == multiset{}
    && r in b.messages
    && Copies(b, b.messages[r].job.id) == {r}
  }

  lemma AloneWorth(b: Broker, r: Receipt, w: Scale)
    requires Alone(b, r)
    ensures Consistent(b)
    ensures Worth(b, b.messages[r].job.id, w) == InQueue(w, Left(b.messages[r].job))
  {
    var id := b.messages[r].job.id;
    var q := Queued(b, id, w);
    assert q.Keys == Copies(b, id);
    SumWithout(q, r);
    assert q - {r} == map[];
    assert Pending(b, id, w) == map[];
  }

  /** The loop ends. With at most `limit` consumers on one message at a time, a job
      with `n` attempts left is never on the queue in more than `limit`^n copies,
      is re-sent at most `limit` + ... + `limit`^n times, and every copy keeps its
      content and budget with attempts within that budget.
      With one at a time that is one copy and `n` re-sends. */
  lemma RetryLoop(b: Broker, run: seq<Step>, c: Broker, r: Receipt, limit: nat)
    requires Alone(b, r) && Plays(b, run, c, limit) && limit >= 1
    ensures var job := b.messages[r].job;
            && |Copies(c, job.id)| <= Power(limit, Left(job))
            && c.sent[job.id] <= Series(limit, Left(job))
            && AllDescend(c, job)
            && (limit == 1 ==> |Copies(c, job.id)| <= 1 && c.sent[job.id] <= Left(job))
  {
    var job := b.messages[r].job;
    AloneWorth(b, r, Scale(1, 0, limit));
    ResendsBounded(b, run, c, job.id, Scale(1, 0, limit));
    AllCounted(c, job.id, limit);
    CopiesWorth(limit, Left(job));
    AloneWorth(b, r, Scale(0, 1, limit));
    ResendsBounded(b, run, c, job.id, Scale(0, 1, limit));
    ResendsWorth(limit, Left(job));
    assert forall q :: q in b.messages && b.messages[q].job.id == job.id ==> q in Copies(b, job.id);
    DescendRun(b, run, c, limit, job);
    OneAtATime(Left(job));
  }

  // ----- A consumer -----

  lemma {:induction false} Concatenate(b: Broker, first: seq<Step>, m: Broker, second: seq<Step>, c: Broker, limit: nat)
    requires Plays(b, first, m, limit) && Plays(m, second, c, limit)
    ensures Plays(b, first + second, c, limit)
    decreases |first|
  {
    if first == [] {
      assert first + second == second;
    } else {
      assert (first + second)[1..] == first[1..] + second;
      Concatenate(Apply(b, first[0]), first[1..], m, second, c, limit);
    }
  }

  /** Some run with at most `limit` consumers on one message leads to `c`. */
  ghost predicate Leads(b: Broker, c: Broker, limit: nat) {
    exists run :: Plays(b, run, c, limit)
  }

  lemma LeadsOn(b: Broker, m: Broker, c: Broker, limit: nat)
    requires Leads(b, m, limit) && Leads(m, c, limit)
    ensures Leads(b, c, limit)
  {
    var first, second :| Plays(b, first, m, limit) && Plays(m, second, c, limit);
    Concatenate(b, first, m, second, c, limit);
  }

  lemma OneStep(b: Broker, a: Step, limit: nat)
    requires Enabled(b, a) && Crowd(b, limit) && Crowd(Apply(b, a), limit)
    ensures Leads(b, Apply(b, a), limit)
  {
    assert Plays(Apply(b, a), [a][1..], Apply(b, a), limit);
    assert Plays(b, [a], Apply(b, a), limit);
  }

  lemma OneTake(b: Broker, a: Step, limit: nat)
    requires Enabled(b, a) && a.Take? && Crowd(b, limit) && |Holders(b, a.receipt)| < limit
    ensures Leads(b, Apply(b, a), limit) && Crowd(Apply(b, a), limit)
    ensures |Holders(Apply(b, a), a.receipt)| == |Holders(b, a.receipt)| + 1
  {
    var c := Apply(b, a);
    assert Holders(c, a.receipt) == Holders(b, a.receipt) + {a.f};
    forall r ensures |Holders(c, r)| <= limit {
      if r != a.receipt {
        assert Holders(c, r) == Holders(b, r);
      }
    }
    OneStep(b, a, limit);
  }

  /** Only `Take` adds a holder. */
  lemma OneOther(b: Broker, a: Step, limit: nat)
    requires Enabled(b, a) && !a.Take? && Crowd(b, limit)
    ensures Leads(b, Apply(b, a), limit) && Crowd(Apply(b, a), limit)
  {
    var c := Apply(b, a);
    forall r ensures |Holders(c, r)| <= limit {
      SubsetSize(Holders(c, r), Holders(b, r));
    }
    OneStep(b, a, limit);
  }

  /** A round without interleaving: receive the message, then report its failure
      with the metadata `Dequeue` wrote into the payload. `b` is the queue with
      whatever other consumers hold. */
  method TakeAndFail(q: Queue, receipt: Receipt, url: string, delay: int, delete: Outcome, send: Outcome,
                     next: Receipt, ghost b: Broker, ghost f: nat, ghost limit: nat)
    returns (result: Failure, ghost c: Broker)
    requires b.messages == q.messages && b.platform == q.platform && url != ""
    requires Enabled(b, Take(f, receipt, url)) && Unused(b, next)
    requires Crowd(b, limit) && |Holders(b, receipt)| < limit
    modifies q
    ensures Leads(b, c, limit) && c.messages == q.messages && c.flights == b.flights
    ensures result.DeleteFailed? <==> delete.Errored()
    ensures c.sent == if delete.Done? && Resends(b.messages[receipt].job, delay) && send.Applied()
                      then b.sent + multiset{b.messages[receipt].job.id} else b.sent
  {
    var got := Got(receipt, Encoded(q.messages[receipt].job));
    var taken, deletes := Dequeue([url], [got]);
    assert [url][0] != "" && [got][0].body.Encoded?;
    var metadata := taken.job.payload.value[METADATA].fields;
    var job;
    result, job := q.MarkFailedWithMetadata(taken.job, metadata, delay, delete, send, next);
    c := Fail(b, f, receipt, url, delay, delete, send, next, limit);
  }

  /** The machine's steps of that round. */
  lemma Fail(b: Broker, f: nat, receipt: Receipt, url: string, delay: int, delete: Outcome, send: Outcome,
             next: Receipt, limit: nat) returns (c: Broker)
    requires Enabled(b, Take(f, receipt, url)) && Unused(b, next)
    requires Crowd(b, limit) && |Holders(b, receipt)| < limit
    ensures Leads(b, c, limit) && c.flights == b.flights
    ensures var job := Tagged(b.messages[receipt].job, receipt, url);
            && c.messages == Failed(b.messages, receipt, job, delay, delete, send, next, b.platform)
            && c.sent == if delete.Done? && Resends(job, delay) && send.Applied() then b.sent + multiset{job.id}
                         else b.sent
  {
    var taken := Apply(b, Take(f, receipt, url));
    OneTake(b, Take(f, receipt, url), limit);
    c := Apply(taken, Delete(f, delay, delete));
    OneOther(taken, Delete(f, delay, delete), limit);
    LeadsOn(b, taken, c, limit);
    if delete.Done? && Resends(taken.flights[f].job, delay) {
      var m := c;
      c := Apply(m, Send(f, send, next));
      OneOther(m, Send(f, send, next), limit);
      LeadsOn(b, m, c, limit);
    }
    assert c.flights == b.flights;
  }

  /** A round that ends well: receive the message, then delete it. */
  method TakeAndComplete(q: Queue, receipt: Receipt, url: string, delete: Outcome,
                         ghost b: Broker, ghost f: nat, ghost limit: nat)
    returns (result: Failure, ghost c: Broker)
    requires b.messages == q.messages && b.platform == q.platform && url != ""
    requires Enabled(b, Take(f, receipt, url)) && Crowd(b, limit) && |Holders(b, receipt)| < limit
    modifies q
    ensures Leads(b, c, limit) && c.messages == q.messages && c.flights == b.flights && c.sent == b.sent
    ensures q.messages == if delete.Applied() then old(q.messages) - {receipt} else old(q.messages)
    ensures result == if delete.Errored() then DeleteFailed else Accepted
  {
    var got := Got(receipt, Encoded(q.messages[receipt].job));
    var taken, deletes := Dequeue([url], [got]);
    assert [url][0] != "" && [got][0].body.Encoded?;
    result := q.MarkCompletedWithMetadata(taken.job.payload.value[METADATA].fields, delete);
    ghost var m := Apply(b, Take(f, receipt, url));
    OneTake(b, Take(f, receipt, url), limit);
    OneOther(m, Complete(f, delete), limit);
    c := Apply(m, Complete(f, delete));
    LeadsOn(b, m, c, limit);
    assert c.flights == b.flights;
  }
}
