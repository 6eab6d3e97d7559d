/** The Redis lease lock over timed runs. `SETNX` takes a free key for a duration,
    `DEL` frees it whoever took it, and the key frees itself when its time is up. */
module LeaseLock {
  import opened Outcomes

  type Client = nat

  /** A zero duration sets no expiry. */
  datatype Lease = Forever | Until(time: nat)

  datatype Key = Free | Taken(lease: Lease)

  /** `holders` are the clients that were told they hold the lock and have not yet
      stopped, each with the end of its own lease. */
  datatype State = State(now: nat, key: Key, holders: map<Client, Lease>)

  datatype Step =
    | Tick(to: nat)
    | Acquire(c: Client, duration: nat, o: Outcome)
    | Release(c: Client, o: Outcome)
    | Abandon(c: Client)

  predicate Running(lease: Lease, now: nat) {
    lease.Forever? || now < lease.time
  }

  predicate Present(s: State) {
    s.key.Taken? && Running(s.key.lease, s.now)
  }

  function LeaseFor(now: nat, duration: nat): Lease {
    if duration == 0 then Forever else Until(now + duration)
  }

  predicate Enabled(s: State, a: Step) {
    match a
    case Tick(to) => s.now <= to
    case Acquire(_, _, _) => true
    case Release(c, _) => c in s.holders
    case Abandon(c) => c in s.holders
  }

  function Apply(s: State, a: Step): State
    requires Enabled(s, a)
  {
    match a
    case Tick(to) => s.(now := to)
    case Acquire(c, duration, o) =>
      if Present(s) || o.Refused? then s
      else
        var lease := LeaseFor(s.now, duration);
        s.(key := Taken(lease), holders := if o.Done? then s.holders[c := lease] else s.holders)
    case Release(c, o) => s.(key := if o.Applied() then Free else s.key, holders := s.holders - {c})
    case Abandon(c) => s.(holders := s.holders - {c})
  }

  predicate Exclusive(s: State) {
    forall c, d :: c in s.holders && d in s.holders ==> c == d
  }

  /** Every holder is still within its own lease. */
  predicate Timely(s: State) {
    forall c :: c in s.holders ==> Running(s.holders[c], s.now)
  }

  /** A run in which every holder stops before its own lease ends. */
  predicate TimelyRun(s: State, run: seq<Step>, t: State)
    decreases |run|
  {
    && Timely(s)
    && if run == [] then s == t
       else Enabled(s, run[0]) && TimelyRun(Apply(s, run[0]), run[1..], t)
  }

  /** Whoever holds the lock holds it by the lease on the key. */
  predicate HeldByKey(s: State) {
    forall c :: c in s.holders ==> s.key == Taken(s.holders[c])
  }

  lemma {:induction false} TimelyRunKeeps(s: State, run: seq<Step>, t: State)
    requires Exclusive(s) && HeldByKey(s) && TimelyRun(s, run, t)
    ensures Exclusive(t) && HeldByKey(t) && Timely(t)
    decreases |run|
  {
    if run != [] {
      TimelyRunKeeps(Apply(s, run[0]), run[1..], t);
    }
  }

  /** If each holder stops before its own lease ends, at most one client holds the
      lock, whatever calls fail and in whatever order they interleave. */
  lemma MutualExclusion(s: State, run: seq<Step>, t: State)
    requires s.holders == map[] && TimelyRun(s, run, t)
    ensures Exclusive(t)
    ensures forall c :: c in t.holders ==> Present(t)
  {
    TimelyRunKeeps(s, run, t);
  }

  /** The discipline is needed: from any timely state with a holder whose lease can
      end, let it overstay and one acquisition makes two holders. */
  lemma OverstayingBreaksExclusion(s: State, run: seq<Step>, t: State, c: Client, d: Client, duration: nat)
    requires s.holders == map[] && TimelyRun(s, run, t)
    requires c in t.holders && t.holders[c].Until? && c != d
    ensures t.now < t.holders[c].time
    ensures var late := Apply(t, Tick(t.holders[c].time));
            && Enabled(late, Acquire(d, duration, Done))
            && !Timely(late)
            && !Exclusive(Apply(late, Acquire(d, duration, Done)))
  {
    TimelyRunKeeps(s, run, t);
    var late := Apply(t, Tick(t.holders[c].time));
    assert d !in t.holders;
    assert !Running(late.holders[c], late.now);
    var both := Apply(late, Acquire(d, duration, Done));
    assert c in both.holders && d in both.holders;
  }

  /** How long a lease lasts: a key taken now is there at every later time before
      `duration` has passed, not from then on, and always for a zero duration. */
  lemma LeaseLasts(s: State, c: Client, duration: nat, o: Outcome, later: nat)
    requires !Present(s) && o.Applied() && s.now <= later
    ensures var t := Apply(Apply(s, Acquire(c, duration, o)), Tick(later));
            && (Present(t) <==> duration == 0 || later < s.now + duration)
            && (o.Done? ==> c in t.holders && t.key == Taken(t.holders[c]))
            && (o.Errored() ==> t.holders == s.holders)
  {
  }

  /** Releasing ends the lease at once, whoever set it; a failed release does not. */
  lemma ReleaseFrees(s: State, c: Client, o: Outcome)
    requires c in s.holders
    ensures var t := Apply(s, Release(c, o));
            && c !in t.holders && (o.Applied() ==> !Present(t)) && (o.Refused? ==> t.key == s.key)
  {
  }

  /** Until then, and as long as nobody releases it, nobody else gets it. */
  lemma {:induction false} LeaseHolds(s: State, run: seq<Step>, t: State)
    requires Present(s) && Runs(s, run, t) && (s.key.lease.Until? ==> t.now < s.key.lease.time)
    requires forall i :: 0 <= i < |run| ==> !run[i].Release?
    ensures t.key == s.key && Present(t) && t.holders.Keys <= s.holders.Keys
    decreases |run|
  {
    if run != [] {
      TimePasses(Apply(s, run[0]), run[1..], t);
      assert forall i :: 0 <= i < |run[1..]| ==> run[1..][i] == run[i + 1];
      LeaseHolds(Apply(s, run[0]), run[1..], t);
    }
  }

  predicate Runs(s: State, run: seq<Step>, t: State)
    decreases |run|
  {
    if run == [] then s == t else Enabled(s, run[0]) && Runs(Apply(s, run[0]), run[1..], t)
  }

  lemma {:induction false} TimePasses(s: State, run: seq<Step>, t: State)
    requires Runs(s, run, t)
    ensures s.now <= t.now
    decreases |run|
  {
    if run != [] {
      TimePasses(Apply(s, run[0]), run[1..], t);
    }
  }

  /** The client's two calls on the shared key. */
  class Store {
    var now: nat
    var key: Key

    constructor (now: nat)
      ensures this.now == now && key == Free
    {
      this.now, key := now, Free;
    }

    /** True exactly when the key was free or its lease over; an error is not a lock,
        even if the key was set. */
    method AcquireLock(c: Client, duration: nat, o: Outcome, ghost s: State) returns (ok: bool, err: bool)
      requires s.now == now && s.key == key
      modifies `key
      ensures key == Apply(s, Acquire(c, duration, o)).key
      ensures ok <==> !Present(s) && o.Done?
      ensures var free := old(key).Free? || (old(key).lease.Until? && old(key).lease.time <= now);
              && (ok <==> free && o.Done?)
              && key == (if free && o.Applied() then Taken(if duration == 0 then Forever else Until(now + duration))
                         else old(key))
      ensures ok ==> Apply(s, Acquire(c, duration, o)).holders == s.holders[c := LeaseFor(now, duration)]
      ensures !ok ==> Apply(s, Acquire(c, duration, o)).holders == s.holders
      ensures err <==> o.Errored()
    {
      err := o.Errored();
      ok := false;
      if o.Applied() {
        if key.Free? || (key.lease.Until? && key.lease.time <= now) {
          key := Taken(if duration == 0 then Forever else Until(now + duration));
          ok := o.Done?;
        }
      }
    }

    /** Deletes the key without asking who set it. */
    method ReleaseLock(o: Outcome) returns (err: bool)
      modifies `key
      ensures key == if o.Applied() then Free else old(key)
      ensures err <==> o.Errored()
    {
      if o.Applied() {
        key := Free;
      }
      err := o.Errored();
    }
  }
}
