/** The SQS listener: what becomes of a message, with any handler and with the
    bridge to the job manager, and how many jobs one message can create. */
module SqsListener {
  import opened Basics
  import opened Outcomes
  import opened SqsQueue
  import JobStore

  /** A message body after JSON decoding; a missing or null payload is `None`. */
  datatype Parsed = Unparsable | Parsed(kind: string, payload: Option<Json>)

  /** The job a message becomes. Its attempt counters start at zero. */
  datatype EventJob = EventJob(kind: string, payload: map<string, Json>, attempts: int, maxAttempts: int)

  /** A handler returns an error or nil and may write to the job it was given. */
  datatype Reply = Reply(error: Option<string>, job: EventJob)

  datatype Event = Handled(job: EventJob) | DeleteRequested

  /** Accepted by `validateMessage` and convertible to a map. */
  predicate WellFormed(m: Parsed) {
    m.Parsed? && m.kind != "" && m.payload.Some? && m.payload.value.Object?
  }

  function JobOf(m: Parsed, id: string, url: string): EventJob
    requires WellFormed(m)
  {
    var metadata := Object(map["sqs_message_id" := Text(id), URL := Text(url)]);
    EventJob(m.kind, m.payload.value.fields[METADATA := metadata], 0, 0)
  }

  /** The handled job is the message: its type, every field of its payload, and
      where it came from under `_sqs_metadata`. */
  lemma JobCarriesMessage(m: Parsed, id: string, url: string, key: string)
    requires WellFormed(m)
    ensures var job := JobOf(m, id, url);
            && job.kind == m.kind && job.attempts == 0 && job.maxAttempts == 0
            && (key != "_sqs_metadata" ==> (key in job.payload <==> key in m.payload.value.fields))
            && (key != "_sqs_metadata" && key in job.payload ==> job.payload[key] == m.payload.value.fields[key])
            && "_sqs_metadata" in job.payload
            && job.payload["_sqs_metadata"] == Object(map["sqs_message_id" := Text(id), "sqs_queue_url" := Text(url)])
  {
  }

  const FATAL := {"invalid_payload", "malformed_data", "authentication_failed"}

  /** `shouldRetry`, on the job as the handler left it. */
  predicate ShouldRetry(job: EventJob, error: string) {
    job.attempts < job.maxAttempts && error !in FATAL
  }

  function Deletes(events: seq<Event>): nat {
    if events == [] then 0 else Deletes(events[1..]) + if events[0].DeleteRequested? then 1 else 0
  }

  class Listener {
    var events: seq<Event>

    constructor ()
      ensures events == []
    {
      events := [];
    }

    method DeleteMessage(o: Outcome) returns (err: bool)
      modifies this
      ensures events == old(events) + [DeleteRequested] && err == o.Errored()
    {
      events := events + [DeleteRequested];
      err := o.Errored();
    }

    method ParseMessage(m: Parsed, o: Outcome) returns (valid: bool)
      modifies this
      ensures valid <==> m.Parsed? && m.kind != "" && m.payload.Some?
      ensures events == if valid then old(events) else old(events) + [DeleteRequested]
    {
      if m.Unparsable? {
        var err := DeleteMessage(o);
        return false;
      }
      if m.kind == "" || m.payload.None? {
        var err := DeleteMessage(o);
        return false;
      }
      valid := true;
    }

    method HandleJobAndCleanup(job: EventJob, handler: EventJob -> Reply, o: Outcome) returns (ok: bool)
      modifies this
      ensures var r := handler(job);
              var kept := r.error.Some? && ShouldRetry(r.job, r.error.value);
              && events == old(events) + [Handled(job)] + (if kept then [] else [DeleteRequested])
              && (ok <==> kept || (r.error.None? && o.Done?))
    {
      var r := handler(job);
      events := events + [Handled(job)];
      if r.error.Some? {
        if r.job.attempts < r.job.maxAttempts && r.error.value !in FATAL {
          return true;
        }
        var err := DeleteMessage(o);
        return false;
      }
      var err := DeleteMessage(o);
      ok := !err;
    }

    /** `processMessage`. A message that is not well-formed is deleted at once; a
        well-formed one is handled exactly once, and deleted exactly once after
        the handler returned, unless `ShouldRetry` leaves it to be redelivered. */
    method ProcessMessage(m: Parsed, id: string, url: string, handler: EventJob -> Reply, o: Outcome) returns (ok: bool)
      modifies this
      ensures events == old(events) + Disposition(m, id, url, handler)
      ensures !WellFormed(m) ==> !ok
      ensures WellFormed(m) ==>
                var r := handler(JobOf(m, id, url));
                ok <==> if r.error.None? then o.Done? else ShouldRetry(r.job, r.error.value)
    {
      var valid := ParseMessage(m, o);
      if !valid {
        return false;
      }
      if !m.payload.value.Object? {
        var err := DeleteMessage(o);
        return false;
      }
      ok := HandleJobAndCleanup(JobOf(m, id, url), handler, o);
    }
  }

  /** The handler run and the delete request one message causes. */
  function Disposition(m: Parsed, id: string, url: string, handler: EventJob -> Reply): (events: seq<Event>)
    ensures !WellFormed(m) ==> events == [DeleteRequested]
    ensures WellFormed(m) ==> |events| >= 1 && events[0] == Handled(JobOf(m, id, url))
    ensures WellFormed(m) ==> (forall i :: 1 <= i < |events| ==> events[i].DeleteRequested?) && |events| <= 2
  {
    if !WellFormed(m) then [DeleteRequested]
    else
      var job := JobOf(m, id, url);
      var r := handler(job);
      var kept := r.error.Some? && ShouldRetry(r.job, r.error.value);
      [Handled(job)] + (if kept then [] else [DeleteRequested])
  }

  // ----- With the bridge to the job manager -----

  /** The two store calls of the `CreateJob` behind `HandleMessage`. */
  datatype Creation = Creation(insert: Outcome, push: Outcome)

  function JobKind(event: string): string {
    if event == "claim" then "init_claim" else if event == "kyc.verification" then "kyc_verification" else event
  }

  /** What the job manager is asked to create; the event job carries no id. */
  datatype Request = Request(kind: string, payload: map<string, Json>, maxAttempts: int)

  const NO_ID := "00000000-0000-0000-0000-000000000000"

  function RequestOf(job: EventJob): Request {
    var source := Object(map["original_event_type" := Text(job.kind), "sqs_event_id" := Text(NO_ID)]);
    Request(JobKind(job.kind), job.payload["_sqs_source" := source], job.maxAttempts)
  }

  /** `JobManagerBridge.HandleMessage`: works on a copy of the payload and never
      writes to the event job. `CreateJob` refuses an empty type. */
  function Bridge(c: Creation, job: EventJob): (r: Reply)
    ensures r.job == job
    ensures r.error.None? <==> job.kind != "" && c.insert.Done? && c.push.Done?
  {
    Reply(if RequestOf(job).kind == "" || c.insert.Errored() || c.push.Errored()
          then Some("failed to create job via job manager") else None, job)
  }

  /** From message to job: the two known event types get their job type and all others
      keep theirs, every field of the payload other than the two the listener
      and the bridge write arrives unchanged, and the budget is the default of three. */
  lemma MessageBecomesJob(m: Parsed, id: string, url: string, key: string)
    requires WellFormed(m)
    ensures var q := RequestOf(JobOf(m, id, url));
            && (m.kind == "claim" ==> q.kind == "init_claim")
            && (m.kind == "kyc.verification" ==> q.kind == "kyc_verification")
            && (m.kind != "claim" && m.kind != "kyc.verification" ==> q.kind == m.kind)
            && (key != "_sqs_metadata" && key != "_sqs_source" ==>
                  && (key in q.payload <==> key in m.payload.value.fields)
                  && (key in q.payload ==> q.payload[key] == m.payload.value.fields[key]))
            && "_sqs_source" in q.payload && q.payload["_sqs_source"].Object?
            && var source := q.payload["_sqs_source"].fields;
               && "original_event_type" in source && source["original_event_type"] == Text(m.kind)
               && JobStore.Budget(q.maxAttempts) == 3
  {
    JobCarriesMessage(m, id, url, key);
  }

  /** With the bridge every path ends in exactly one delete request, for a
      well-formed message only after the handler returned: the counters of the
      event job are both zero, so `ShouldRetry` never holds. */
  lemma BridgeDeletesOnce(m: Parsed, id: string, url: string, c: Creation)
    ensures var events := Disposition(m, id, url, job => Bridge(c, job));
            && Deletes(events) == 1
            && events == if WellFormed(m) then [Handled(JobOf(m, id, url)), DeleteRequested] else [DeleteRequested]
  {
    OneDelete();
    if WellFormed(m) {
      var job := JobOf(m, id, url);
      assert [Handled(job), DeleteRequested][1..] == [DeleteRequested];
    }
  }

  /** At most one delete request, and none exactly when a handler fails, leaves
      attempts to spend on the job, and does not name a fatal error. */
  lemma KeptExactly(m: Parsed, id: string, url: string, handler: EventJob -> Reply)
    ensures Deletes(Disposition(m, id, url, handler)) <= 1
    ensures Deletes(Disposition(m, id, url, handler)) == 0 <==>
            && WellFormed(m)
            && var r := handler(JobOf(m, id, url));
               && r.error.Some? && r.job.attempts < r.job.maxAttempts
               && r.error.value != "invalid_payload" && r.error.value != "malformed_data"
               && r.error.value != "authentication_failed"
  {
    assert Deletes([]) == 0;
    OneDelete();
    if WellFormed(m) {
      var job := JobOf(m, id, url);
      assert ([Handled(job)] + [])[1..] == [];
      assert ([Handled(job)] + [DeleteRequested])[1..] == [DeleteRequested];
    }
  }

  lemma OneDelete()
    ensures Deletes([DeleteRequested]) == 1
  {
    assert [DeleteRequested][1..] == [];
  }

  // ----- Redelivery -----

  /** A consumer's delivery of a message: what is still to do for it. */
  datatype Flight = Flight(message: nat, creation: Creation, todo: seq<Event>)

  /** The messages the queue still holds, the deliveries under way, and per message
      how often it was received, the rows made from it, its refused deletes and the
      deliveries whose consumer died. */
  datatype Deliveries = Deliveries(
    held: set<nat>,
    flights: map<nat, Flight>,
    received: multiset<nat>,
    rows: multiset<nat>,
    refused: multiset<nat>,
    dropped: multiset<nat>)

  /** A held message may be received again at any time, whether or not an earlier
      delivery of it is still under way. */
  datatype Delivery =
    | Receive(flight: nat, message: nat, body: Parsed, creation: Creation)
    | Act(flight: nat, delete: Outcome)
    | Drop(flight: nat)

  predicate Deliverable(d: Deliveries, x: Delivery) {
    match x
    case Receive(f, m, _, _) => m in d.held && f !in d.flights
    case Act(f, _) => f in d.flights && d.flights[f].todo != []
    case Drop(f) => f in d.flights
  }

  function Delivered(d: Deliveries, x: Delivery): Deliveries
    requires Deliverable(d, x)
  {
    match x
    case Receive(f, m, body, creation) =>
      var todo := Disposition(body, "", "", job => Bridge(creation, job));
      d.(flights := d.flights[f := Flight(m, creation, todo)], received := d.received + multiset{m})
    case Act(f, delete) =>
      var Flight(m, creation, todo) := d.flights[f];
      var e := d.(flights := if |todo| == 1 then d.flights - {f}
                             else d.flights[f := Flight(m, creation, todo[1..])]);
      if todo[0].Handled? then e.(rows := if creation.insert.Applied() then d.rows + multiset{m} else d.rows)
      else if delete.Applied() then e.(held := d.held - {m})
      else e.(refused := d.refused + multiset{m})
    case Drop(f) => d.(flights := d.flights - {f}, dropped := d.dropped + multiset{d.flights[f].message})
  }

  function Flying(d: Deliveries, m: nat): set<nat> {
    set f | f in d.flights && d.flights[f].message == m
  }

  function Unhandled(d: Deliveries, m: nat): set<nat> {
    set f | f in d.flights && d.flights[f].message == m && d.flights[f].todo != [] && d.flights[f].todo[0].Handled?
  }

  /** `run` leads from `d` to `e`, with at most `limit` deliveries of the message
      under way at any time. */
  predicate Delivers(d: Deliveries, run: seq<Delivery>, e: Deliveries, m: nat, limit: nat)
    decreases |run|
  {
    && |Flying(d, m)| <= limit
    && if run == [] then d == e
       else Deliverable(d, run[0]) && Delivers(Delivered(d, run[0]), run[1..], e, m, limit)
  }

  /** One delete is left to do, after the handler if that has not run yet. */
  predicate OnCourse(f: Flight) {
    || f.todo == [DeleteRequested]
    || (|f.todo| == 2 && f.todo[0].Handled? && f.todo[1] == DeleteRequested)
  }

  /** While the message is held, each of its deliveries was refused its delete, was
      dropped or is still under way; the rows come from deliveries whose handler
      has run. */
  ghost predicate CountsAgree(d: Deliveries, m: nat, limit: nat) {
    && d.received[m] <= limit + d.refused[m] + d.dropped[m]
    && (m in d.held ==> d.received[m] == d.refused[m] + d.dropped[m] + |Flying(d, m)|)
    && d.rows[m] + |Unhandled(d, m)| <= d.received[m]
  }

  ghost predicate RowsPaidFor(d: Deliveries, m: nat, limit: nat) {
    (forall f :: f in d.flights ==> OnCourse(d.flights[f])) && CountsAgree(d, m, limit)
  }

  /** The message a step is about. */
  function Concerned(d: Deliveries, x: Delivery): nat
    requires Deliverable(d, x)
  {
    if x.Receive? then x.message else d.flights[x.flight].message
  }

  lemma OneFlightMoves(d: Deliveries, x: Delivery)
    requires Deliverable(d, x)
    ensures var e := Delivered(d, x);
            && e.flights - {x.flight} == d.flights - {x.flight}
            && (x.flight in e.flights ==> e.flights[x.flight].message == Concerned(d, x))
  {
  }

  lemma SameElsewhere(d: Deliveries, e: Deliveries, f: nat, m: nat)
    requires e.flights - {f} == d.flights - {f}
    requires f in d.flights ==> d.flights[f].message != m
    requires f in e.flights ==> e.flights[f].message != m
    ensures Flying(e, m) == Flying(d, m) && Unhandled(e, m) == Unhandled(d, m)
  {
    assert forall g :: g in e.flights && g != f ==> g in d.flights - {f} && e.flights[g] == (d.flights - {f})[g];
    assert forall g :: g in d.flights && g != f ==> g in e.flights - {f} && d.flights[g] == (e.flights - {f})[g];
  }

  lemma OthersKeepCounts(d: Deliveries, x: Delivery, m: nat, limit: nat)
    requires CountsAgree(d, m, limit) && Deliverable(d, x) && Concerned(d, x) != m
    ensures CountsAgree(Delivered(d, x), m, limit)
  {
    var e := Delivered(d, x);
    OneFlightMoves(d, x);
    SameElsewhere(d, e, x.flight, m);
    assert e.received[m] == d.received[m] && e.rows[m] == d.rows[m];
    assert e.refused[m] == d.refused[m] && e.dropped[m] == d.dropped[m];
  }

  lemma ReceivedCounts(d: Deliveries, x: Delivery, m: nat, limit: nat)
    requires CountsAgree(d, m, limit) && Deliverable(d, x) && x.Receive? && x.message == m
    requires |Flying(Delivered(d, x), m)| <= limit
    ensures CountsAgree(Delivered(d, x), m, limit)
  {
    var e := Delivered(d, x);
    assert Flying(e, m) == Flying(d, m) + {x.flight};
    assert Unhandled(e, m) <= Unhandled(d, m) + {x.flight};
    SubsetSize(Unhandled(e, m), Unhandled(d, m) + {x.flight});
  }

  lemma DroppedCounts(d: Deliveries, x: Delivery, m: nat, limit: nat)
    requires CountsAgree(d, m, limit) && Deliverable(d, x) && x.Drop? && d.flights[x.flight].message == m
    ensures CountsAgree(Delivered(d, x), m, limit)
  {
    var e := Delivered(d, x);
    assert Flying(e, m) == Flying(d, m) - {x.flight};
    SubsetSize(Unhandled(e, m), Unhandled(d, m));
  }

  lemma HandledCounts(d: Deliveries, x: Delivery, m: nat, limit: nat)
    requires CountsAgree(d, m, limit) && Deliverable(d, x) && x.Act? && OnCourse(d.flights[x.flight])
    requires d.flights[x.flight].message == m && d.flights[x.flight].todo[0].Handled?
    ensures CountsAgree(Delivered(d, x), m, limit)
  {
    var e := Delivered(d, x);
    assert Flying(e, m) == Flying(d, m);
    assert Unhandled(e, m) == Unhandled(d, m) - {x.flight};
  }

  lemma DeletedCounts(d: Deliveries, x: Delivery, m: nat, limit: nat)
    requires CountsAgree(d, m, limit) && Deliverable(d, x) && x.Act? && OnCourse(d.flights[x.flight])
    requires d.flights[x.flight].message == m && d.flights[x.flight].todo[0].DeleteRequested?
    ensures CountsAgree(Delivered(d, x), m, limit)
  {
    var e := Delivered(d, x);
    assert Flying(e, m) == Flying(d, m) - {x.flight};
    assert Unhandled(e, m) == Unhandled(d, m);
  }

  lemma KeepsCourse(d: Deliveries, x: Delivery)
    requires Deliverable(d, x) && forall f :: f in d.flights ==> OnCourse(d.flights[f])
    ensures var e := Delivered(d, x); forall f :: f in e.flights ==> OnCourse(e.flights[f])
  {
    if x.Receive? {
      BridgeDeletesOnce(x.body, "", "", x.creation);
    } else {
      assert OnCourse(d.flights[x.flight]);
    }
  }

  lemma PaidStep(d: Deliveries, x: Delivery, m: nat, limit: nat)
    requires RowsPaidFor(d, m, limit) && Deliverable(d, x) && |Flying(Delivered(d, x), m)| <= limit
    ensures RowsPaidFor(Delivered(d, x), m, limit)
  {
    KeepsCourse(d, x);
    if Concerned(d, x) != m {
      OthersKeepCounts(d, x, m, limit);
    } else if x.Receive? {
      ReceivedCounts(d, x, m, limit);
    } else if x.Drop? {
      DroppedCounts(d, x, m, limit);
    } else {
      assert OnCourse(d.flights[x.flight]);
      if d.flights[x.flight].todo[0].Handled? {
        HandledCounts(d, x, m, limit);
      } else {
        DeletedCounts(d, x, m, limit);
      }
    }
  }

  lemma {:induction false} PaidRun(d: Deliveries, run: seq<Delivery>, e: Deliveries, m: nat, limit: nat)
    requires RowsPaidFor(d, m, limit) && Delivers(d, run, e, m, limit)
    ensures RowsPaidFor(e, m, limit)
    decreases |run|
  {
    if run != [] {
      var next := Delivered(d, run[0]);
      assert Delivers(next, run[1..], e, m, limit);
      PaidStep(d, run[0], m, limit);
      PaidRun(next, run[1..], e, m, limit);
    }
  }

  function Fresh(held: set<nat>): Deliveries {
    Deliveries(held, map[], multiset{}, multiset{}, multiset{}, multiset{})
  }

  /** Of a message with at most `limit` deliveries under way at any time, the job
      rows number at most `limit` plus its refused deletes and dropped deliveries. */
  lemma RowsPerMessage(held: set<nat>, run: seq<Delivery>, e: Deliveries, m: nat, limit: nat)
    requires Delivers(Fresh(held), run, e, m, limit)
    ensures e.rows[m] <= limit + e.refused[m] + e.dropped[m]
  {
    assert Flying(Fresh(held), m) == {} && Unhandled(Fresh(held), m) == {};
    PaidRun(Fresh(held), run, e, m, limit);
  }

  // ----- The bound is reached -----

  lemma {:induction false} Concatenate(d: Deliveries, first: seq<Delivery>, e: Deliveries, second: seq<Delivery>,
                                       f: Deliveries, m: nat, limit: nat)
    requires Delivers(d, first, e, m, limit) && Delivers(e, second, f, m, limit)
    ensures Delivers(d, first + second, f, m, limit)
    decreases |first|
  {
    if first == [] {
      assert first + second == second;
    } else {
      assert (first + second)[1..] == first[1..] + second;
      Concatenate(Delivered(d, first[0]), first[1..], e, second, f, m, limit);
    }
  }

  const CLAIM := Parsed("claim", Some(Object(map[])))
  const WORKS := Creation(Done, Done)

  lemma ReceiveClaim(d: Deliveries, f: nat, m: nat, limit: nat) returns (e: Deliveries)
    requires m in d.held && f !in d.flights && |Flying(d, m)| < limit
    ensures Delivers(d, [Receive(f, m, CLAIM, WORKS)], e, m, limit) && |Flying(e, m)| == |Flying(d, m)| + 1
    ensures e == d.(flights := e.flights, received := e.received)
    ensures exists job :: e.flights == d.flights[f := Flight(m, WORKS, [Handled(job), DeleteRequested])]
  {
    BridgeDeletesOnce(CLAIM, "", "", WORKS);
    e := Delivered(d, Receive(f, m, CLAIM, WORKS));
    assert Flying(e, m) == Flying(d, m) + {f};
  }

  lemma FinishClaim(d: Deliveries, f: nat, m: nat, job: EventJob, limit: nat) returns (e: Deliveries)
    requires f in d.flights && d.flights[f] == Flight(m, WORKS, [Handled(job), DeleteRequested])
    requires |Flying(d, m)| <= limit
    ensures Delivers(d, [Act(f, Done), Act(f, Done)], e, m, limit)
    ensures e.flights == d.flights - {f} && e.held == d.held - {m}
    ensures e.refused == d.refused && e.dropped == d.dropped
    ensures e.rows[m] == d.rows[m] + 1
  {
    var handled := Delivered(d, Act(f, Done));
    assert [Handled(job), DeleteRequested][1..] == [DeleteRequested];
    assert Flying(handled, m) == Flying(d, m);
    e := Delivered(handled, Act(f, Done));
    assert Flying(e, m) == Flying(d, m) - {f};
    assert handled.flights - {f} == d.flights - {f};
    assert [Act(f, Done), Act(f, Done)][1..] == [Act(f, Done)] && [Act(f, Done)][1..] == [];
  }

  /** Each of `n` consumers receives the message before any of them acts on it. */
  lemma {:induction false} Nested(d: Deliveries, n: nat, m: nat, limit: nat) returns (run: seq<Delivery>, e: Deliveries)
    requires m in d.held && |Flying(d, m)| + n <= limit && (forall f :: 0 <= f < n ==> f !in d.flights)
    ensures Delivers(d, run, e, m, limit)
    ensures e.flights == d.flights && e.refused == d.refused && e.dropped == d.dropped
    ensures e.held == (if n == 0 then d.held else d.held - {m}) && e.rows[m] == d.rows[m] + n
    decreases n
  {
    if n == 0 {
      run, e := [], d;
    } else {
      var f := n - 1;
      var taken := ReceiveClaim(d, f, m, limit);
      var inner, left := Nested(taken, n - 1, m, limit);
      e := FinishClaim(left, f, m, taken.flights[f].todo[0].job, limit);
      Concatenate(taken, inner, left, [Act(f, Done), Act(f, Done)], e, m, limit);
      Concatenate(d, [Receive(f, m, CLAIM, WORKS)], taken, inner + [Act(f, Done), Act(f, Done)], e, m, limit);
      run := [Receive(f, m, CLAIM, WORKS)] + (inner + [Act(f, Done), Act(f, Done)]);
      assert taken.flights - {f} == d.flights;
    }
  }

  /** Overlapping deliveries do make rows: for every `limit` some run with at most
      that many under way makes `limit` rows and ends with the message deleted, no
      delete refused and no delivery dropped. With two, two consumers both insert and both delete. */
  lemma OverlapDuplicates(m: nat, limit: nat) returns (run: seq<Delivery>, e: Deliveries)
    requires limit >= 1
    ensures Delivers(Fresh({m}), run, e, m, limit)
    ensures e.rows[m] == limit && e.refused[m] == 0 && e.dropped[m] == 0 && e.held == {} && e.flights == map[]
  {
    assert Flying(Fresh({m}), m) == {};
    run, e := Nested(Fresh({m}), limit, m, limit);
  }
}
