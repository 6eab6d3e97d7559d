/** That the bounds on copies and re-sends of the SQS retry loop are reached. */
module SqsDuplication {
  import opened Basics
  import opened Outcomes
  import opened SqsQueue
  import opened SqsRetry

  lemma {:induction false} LongReceipt(taken: set<Receipt>) returns (r: Receipt)
    ensures forall x :: x in taken ==> |x| < |r|
  {
    if taken == {} {
      r := "";
    } else {
      var x :| x in taken;
      var k := LongReceipt(taken - {x});
      r := if |x| < |k| then k else x + "+";
      assert forall y :: y in taken ==> y == x || y in taken - {x};
    }
  }

  lemma NewReceipt(b: Broker) returns (r: Receipt)
    ensures Unused(b, r)
  {
    r := LongReceipt(b.messages.Keys + set f | f in b.flights :: b.flights[f].receipt);
    assert forall f :: f in b.flights ==> b.flights[f].receipt in set f | f in b.flights :: b.flights[f].receipt;
  }

  lemma DeleteAndSend(d: Broker, f: nat, next: Receipt, limit: nat) returns (e: Broker)
    requires Crowd(d, limit) && f in d.flights && d.flights[f].stage.Holding? && Left(d.flights[f].job) >= 1
    requires Unused(d, next)
    ensures Leads(d, e, limit) && Crowd(e, limit)
    ensures var x := d.flights[f];
            && e == d.(messages := e.messages, flights := d.flights - {f}, sent := d.sent + multiset{x.job.id})
            && next in e.messages && e.messages[next].job == Retried(x.job)
            && e.messages == (d.messages - {x.receipt})[next := e.messages[next]]
  {
    var m := Apply(d, Delete(f, 1, Done));
    OneOther(d, Delete(f, 1, Done), limit);
    e := Apply(m, Send(f, Done, next));
    OneOther(m, Send(f, Done, next), limit);
    LeadsOn(d, m, e, limit);
    assert e.flights == d.flights - {f};
  }

  function InHands(b: Broker): set<Receipt> {
    set f | f in b.flights :: b.flights[f].receipt
  }

  /** The consumers at work are the same again, and of the messages they hold no
      deleted one came back; if `n` others took `r`, it is deleted. */
  ghost predicate Spares(b: Broker, c: Broker, r: Receipt, n: nat) {
    && c.flights == b.flights
    && c.messages.Keys * InHands(b) <= (if n == 0 then b.messages.Keys else b.messages.Keys - {r})
    && (n == 0 ==> c == b)
  }

  /** The copies that `n` consumers of a message with `left` attempts make of it,
      when each of those copies is used up in turn, and the re-sends that takes. */
  function CopiesBy(n: nat, left: nat, limit: nat): nat
    requires left >= 1
    decreases left, n
  {
    if n == 0 then 0 else CopiesBy(n - 1, left, limit) + CopiesOf(left - 1, limit)
  }

  function CopiesOf(left: nat, limit: nat): nat
    decreases left, limit + 1
  {
    if left == 0 then 1 else CopiesBy(limit, left, limit)
  }

  function SendsBy(n: nat, left: nat, limit: nat): nat
    requires left >= 1
    decreases left, n
  {
    if n == 0 then 0 else SendsBy(n - 1, left, limit) + 1 + SendsOf(left - 1, limit)
  }

  function SendsOf(left: nat, limit: nat): nat
    decreases left, limit + 1
  {
    if left == 0 then 0 else SendsBy(limit, left, limit)
  }

  lemma {:induction false} CopiesInClosedForm(n: nat, left: nat, limit: nat)
    requires left >= 1
    ensures CopiesBy(n, left, limit) == n * Power(limit, left - 1)
    ensures CopiesOf(left - 1, limit) == Power(limit, left - 1)
    decreases left, n
  {
    if left > 1 {
      CopiesInClosedForm(limit, left - 1, limit);
    }
    if n > 0 {
      CopiesInClosedForm(n - 1, left, limit);
      OneMore(n - 1, Power(limit, left - 1));
    }
  }

  lemma {:induction false} SendsInClosedForm(n: nat, left: nat, limit: nat)
    requires left >= 1
    ensures SendsBy(n, left, limit) == n * (1 + Series(limit, left - 1))
    ensures SendsOf(left - 1, limit) == Series(limit, left - 1)
    decreases left, n
  {
    if left > 1 {
      SendsInClosedForm(limit, left - 1, limit);
      SeriesShift(limit, left - 1);
    }
    if n > 0 {
      SendsInClosedForm(n - 1, left, limit);
      OneMore(n - 1, 1 + Series(limit, left - 1));
    }
  }

  ghost predicate Counts(b: Broker, c: Broker, id: Id, left: nat, n: nat, limit: nat)
    requires left >= 1
  {
    && |Copies(c, id)| == |Copies(b, id)| - (if n == 0 then 0 else 1) + CopiesBy(n, left, limit)
    && c.sent[id] == b.sent[id] + SendsBy(n, left, limit)
  }

  lemma SendingCounts(b: Broker, d: Broker, e: Broker, r: Receipt, next: Receipt, n: nat, id: Id)
    requires r in Copies(b, id) && next !in d.messages && next != r
    requires n == 0 ==> r in Copies(d, id)
    requires n > 0 ==> r !in d.messages
    requires next in e.messages && e.messages[next].job.id == id
    requires e.messages == (d.messages - {r})[next := e.messages[next]]
    ensures |Copies(e, id)| == |Copies(d, id)| + if n == 0 then 0 else 1
  {
    assert Copies(e, id) == Copies(d, id) - {r} + {next};
  }

  /** From `d` to `e` one more copy was sent, the first with its message deleted. */
  ghost predicate SentOne(d: Broker, e: Broker, id: Id, n: nat) {
    |Copies(e, id)| == (|Copies(d, id)| + if n == 0 then 0 else 1) && e.sent[id] == d.sent[id] + 1
  }

  /** From `e` to `c` a copy with `left` attempts was used up. */
  ghost predicate Exhausted(e: Broker, c: Broker, id: Id, left: nat, limit: nat) {
    && |Copies(c, id)| == |Copies(e, id)| - 1 + CopiesOf(left, limit)
    && c.sent[id] == e.sent[id] + SendsOf(left, limit)
  }

  lemma SparesOneMore(b: Broker, d: Broker, e: Broker, r: Receipt, next: Receipt, f: nat, x: Flight, n: nat)
    requires f !in b.flights && x.receipt == r && Spares(b.(flights := b.flights[f := x]), d, r, n)
    requires Unused(d, next)
    requires e.flights == d.flights - {f} && next in e.messages
    requires e.messages == (d.messages - {r})[next := e.messages[next]]
    ensures Spares(b, e, r, n + 1) && next != r && Holders(e, next) == {} && next !in InHands(b)
  {
    var taken := b.(flights := b.flights[f := x]);
    assert d.flights[f].receipt == r;
    assert e.flights == b.flights;
    assert InHands(b) <= InHands(taken);
    assert next !in InHands(d);
  }

  lemma SparesThen(b: Broker, e: Broker, c: Broker, r: Receipt, next: Receipt, n: nat, limit: nat)
    requires Spares(b, e, r, n) && Spares(e, c, next, limit) && n > 0
    ensures Spares(b, c, r, n)
  {
    assert InHands(e) == InHands(b);
  }

  /** A copy of the job `id` with `left` attempts left. */
  predicate Stands(b: Broker, r: Receipt, id: Id, left: nat) {
    && r in b.messages && b.messages[r].job.payload.Some?
    && b.messages[r].job.id == id && Left(b.messages[r].job) == left
  }

  /** `taken` is `b` with one more consumer on the message. */
  ghost predicate OneTakes(b: Broker, r: Receipt, f: nat, taken: Broker) {
    && r in b.messages && b.messages[r].job.payload.Some? && f !in b.flights
    && taken == b.(flights := b.flights[f := Flight(r, Tagged(b.messages[r].job, r, ""), Holding)])
  }

  lemma TakeOne(b: Broker, r: Receipt, id: Id, left: nat, limit: nat) returns (f: nat, taken: Broker)
    requires Crowd(b, limit) && |Holders(b, r)| < limit && Stands(b, r, id, left)
    ensures OneTakes(b, r, f, taken) && Leads(b, taken, limit) && Crowd(taken, limit)
    ensures |Holders(taken, r)| == |Holders(b, r)| + 1 && Stands(taken, r, id, left)
  {
    f := Above(b.flights.Keys);
    taken := Apply(b, Take(f, r, ""));
    OneTake(b, Take(f, r, ""), limit);
  }

  lemma CountsOneMore(b: Broker, r: Receipt, f: nat, taken: Broker, d: Broker, e: Broker, c: Broker,
                      id: Id, left: nat, n: nat, limit: nat)
    requires left >= 1 && n >= 1 && OneTakes(b, r, f, taken) && Counts(taken, d, id, left, n - 1, limit)
    requires SentOne(d, e, id, n - 1) && Exhausted(e, c, id, left - 1, limit)
    ensures Counts(b, c, id, left, n, limit)
  {
    assert Copies(taken, id) == Copies(b, id);
  }

  ghost predicate Multiplied(b: Broker, c: Broker, r: Receipt, n: nat, id: Id, left: nat, limit: nat)
    requires left >= 1
  {
    Leads(b, c, limit) && Crowd(c, limit) && Spares(b, c, r, n) && Counts(b, c, id, left, n, limit)
  }

  ghost predicate Used(b: Broker, c: Broker, r: Receipt, id: Id, left: nat, limit: nat) {
    && Leads(b, c, limit) && Crowd(c, limit)
    && Spares(b, c, r, if left == 0 then 0 else limit)
    && Exhausted(b, c, id, left, limit)
  }

  /** From `d` to `e` the last of the `n` consumers of `r` reported its failure. */
  ghost predicate Reported(b: Broker, d: Broker, r: Receipt, n: nat, e: Broker, next: Receipt, id: Id, limit: nat)
    requires n >= 1
  {
    && Leads(d, e, limit) && Crowd(e, limit) && Spares(b, e, r, n) && SentOne(d, e, id, n - 1)
    && Holders(e, next) == {}
  }

  lemma Report(b: Broker, taken: Broker, d: Broker, r: Receipt, f: nat, n: nat, id: Id, left: nat, limit: nat)
    returns (e: Broker, next: Receipt)
    requires Stands(b, r, id, left) && left >= 1 && n >= 1 && OneTakes(b, r, f, taken)
    requires Multiplied(taken, d, r, n - 1, id, left, limit)
    ensures Reported(b, d, r, n, e, next, id, limit) && Stands(e, next, id, left - 1)
  {
    next := NewReceipt(d);
    assert d.flights[f].receipt == r;
    e := DeleteAndSend(d, f, next, limit);
    SparesOneMore(b, d, e, r, next, f, taken.flights[f], n - 1);
    SendingCounts(b, d, e, r, next, n - 1, id);
  }

  lemma Combine(b: Broker, r: Receipt, f: nat, taken: Broker, d: Broker, e: Broker, next: Receipt, c: Broker,
                n: nat, id: Id, left: nat, limit: nat)
    requires left >= 1 && n >= 1 && OneTakes(b, r, f, taken) && Leads(b, taken, limit)
    requires Multiplied(taken, d, r, n - 1, id, left, limit)
    requires Reported(b, d, r, n, e, next, id, limit)
    requires Used(e, c, next, id, left - 1, limit)
    ensures Multiplied(b, c, r, n, id, left, limit)
  {
    CountsOneMore(b, r, f, taken, d, e, c, id, left, n, limit);
    SparesThen(b, e, c, r, next, n, if left == 1 then 0 else limit);
    LeadsOn(b, taken, d, limit);
    LeadsOn(b, d, e, limit);
    LeadsOn(b, e, c, limit);
  }

  /** `n` consumers take the message `r` before any of them reports; the copies
      they send are treated the same way, by `limit` consumers each. */
  lemma {:induction false} Multiply(b: Broker, r: Receipt, n: nat, id: Id, left: nat, limit: nat) returns (c: Broker)
    requires Crowd(b, limit) && |Holders(b, r)| + n <= limit && Stands(b, r, id, left) && left >= 1
    ensures Multiplied(b, c, r, n, id, left, limit)
    decreases left, n
  {
    if n == 0 {
      assert Plays(b, [], b, limit);
      c := b;
    } else {
      var f, taken := TakeOne(b, r, id, left, limit);
      var d := Multiply(taken, r, n - 1, id, left, limit);
      var e, next := Report(b, taken, d, r, f, n, id, left, limit);
      c := Exhaust(e, next, id, left - 1, limit);
      Combine(b, r, f, taken, d, e, next, c, n, id, left, limit);
    }
  }

  /** All the consumers a message and its copies can have. */
  lemma {:induction false} Exhaust(b: Broker, r: Receipt, id: Id, left: nat, limit: nat) returns (c: Broker)
    requires Crowd(b, limit) && Holders(b, r) == {} && limit >= 1 && Stands(b, r, id, left)
    ensures Used(b, c, r, id, left, limit)
    decreases left, limit + 1
  {
    if left == 0 {
      assert Plays(b, [], b, limit);
      c := b;
    } else {
      c := Multiply(b, r, limit, id, left, limit);
    }
  }

  /** Both bounds of `RetryLoop` are reached, for every limit and every number of
      attempts left. With two consumers and one attempt left that is two copies:
      both delete the message and both send. */
  lemma BoundsReached(b: Broker, r: Receipt, limit: nat) returns (run: seq<Step>, c: Broker)
    requires Alone(b, r) && b.messages[r].job.payload.Some? && limit >= 1
    ensures Plays(b, run, c, limit) && c.flights == map[]
    ensures var job := b.messages[r].job;
            && |Copies(c, job.id)| == Power(limit, Left(job))
            && c.sent[job.id] == Series(limit, Left(job))
  {
    assert forall q :: Holders(b, q) == {};
    var left := Left(b.messages[r].job);
    c := Exhaust(b, r, b.messages[r].job.id, left, limit);
    CopiesInClosedForm(0, left + 1, limit);
    SendsInClosedForm(0, left + 1, limit);
    run :| Plays(b, run, c, limit);
  }
}
