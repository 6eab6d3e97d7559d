/** The read-through cache `Wrap`, with overlapping calls over timed runs. */
module ReadThroughCache {
  import opened Outcomes

  type Value = int

  datatype Expiry = Never | At(time: nat)

  /** A cached value, and when the source was read for it. */
  datatype Entry = Absent | Entry(value: Value, expiry: Expiry, readAt: nat)

  datatype Call = Missed | Loaded(value: Value, readAt: nat)

  /** A value handed to a caller at some time. */
  datatype Answer = Answer(value: Value, at: nat)

  datatype State = State(now: nat, entry: Entry, calls: map<nat, Call>, answers: seq<Answer>)

  datatype Step =
    | Tick(to: nat)
    | Get(call: nat, failed: bool)
    | Load(call: nat, failed: bool)
    | Save(call: nat, ttl: nat, o: Outcome)

  /** The source's value at each time. */
  type Source = nat -> Value

  predicate Fresh(s: State) {
    s.entry.Entry? && (s.entry.expiry.Never? || s.now < s.entry.expiry.time)
  }

  predicate Enabled(s: State, a: Step) {
    match a
    case Tick(to) => s.now <= to
    case Get(call, _) => call !in s.calls
    case Load(call, _) => call in s.calls && s.calls[call].Missed?
    case Save(call, _, _) => call in s.calls && s.calls[call].Loaded?
  }

  /** Any error of `Get`, not only a miss, sends the call to the source. */
  function Apply(source: Source, s: State, a: Step): State
    requires Enabled(s, a)
  {
    match a
    case Tick(to) => s.(now := to)
    case Get(call, failed) =>
      if Fresh(s) && !failed then s.(answers := s.answers + [Answer(s.entry.value, s.now)])
      else s.(calls := s.calls[call := Missed])
    case Load(call, failed) =>
      if failed then s.(calls := s.calls - {call})
      else s.(calls := s.calls[call := Loaded(source(s.now), s.now)])
    case Save(call, ttl, o) =>
      var c := s.calls[call];
      var saved := Entry(c.value, if ttl == 0 then Never else At(s.now + ttl), c.readAt);
      s.(entry := if o.Applied() then saved else s.entry,
         calls := s.calls - {call},
         answers := s.answers + [Answer(c.value, s.now)])
  }

  predicate Reaches(source: Source, s: State, run: seq<Step>, t: State)
    decreases |run|
  {
    if run == [] then s == t
    else Enabled(s, run[0]) && Reaches(source, Apply(source, s, run[0]), run[1..], t)
  }

  /** Every write uses a positive TTL of at most `ttl` and comes at most `delay`
      after the source was read. */
  predicate Prompt(source: Source, s: State, run: seq<Step>, ttl: nat, delay: nat)
    decreases |run|
  {
    run != [] && Enabled(s, run[0]) ==>
      && (run[0].Save? ==> 0 < run[0].ttl <= ttl && s.now <= s.calls[run[0].call].readAt + delay)
      && Prompt(source, Apply(source, s, run[0]), run[1..], ttl, delay)
  }

  /** The answer was the source's value at most `age` before it was given. */
  ghost predicate Recent(source: Source, a: Answer, age: nat) {
    exists t: nat :: t <= a.at <= t + age && a.value == source(t)
  }

  ghost predicate Sound(source: Source, s: State, ttl: nat, delay: nat) {
    && (s.entry.Entry? ==>
          && s.entry.value == source(s.entry.readAt) && s.entry.readAt <= s.now
          && s.entry.expiry.At? && s.entry.expiry.time <= s.entry.readAt + delay + ttl)
    && (forall c :: c in s.calls && s.calls[c].Loaded? ==>
          s.calls[c].value == source(s.calls[c].readAt) && s.calls[c].readAt <= s.now)
    && (forall i :: 0 <= i < |s.answers| ==> Recent(source, s.answers[i], ttl + delay))
  }

  lemma SoundStep(source: Source, s: State, a: Step, ttl: nat, delay: nat)
    requires Sound(source, s, ttl, delay) && Enabled(s, a)
    requires a.Save? ==> 0 < a.ttl <= ttl && s.now <= s.calls[a.call].readAt + delay
    ensures Sound(source, Apply(source, s, a), ttl, delay)
  {
    var t := Apply(source, s, a);
    forall i | 0 <= i < |t.answers|
      ensures Recent(source, t.answers[i], ttl + delay)
    {
      if i < |s.answers| {
        assert Recent(source, s.answers[i], ttl + delay);
      } else {
        var readAt := if a.Save? then s.calls[a.call].readAt else s.entry.readAt;
        assert readAt <= t.answers[i].at <= readAt + (ttl + delay) && t.answers[i].value == source(readAt);
      }
    }
  }

  lemma {:induction false} SoundRun(source: Source, s: State, run: seq<Step>, t: State, ttl: nat, delay: nat)
    requires Sound(source, s, ttl, delay) && Reaches(source, s, run, t) && Prompt(source, s, run, ttl, delay)
    ensures Sound(source, t, ttl, delay)
    decreases |run|
  {
    if run != [] {
      SoundStep(source, s, run[0], ttl, delay);
      SoundRun(source, Apply(source, s, run[0]), run[1..], t, ttl, delay);
    }
  }

  /** With all writes through `Wrap` and positive TTLs, every value it returns was
      the source's value at most the TTL plus the write delay ago. */
  lemma AnswersAreRecent(source: Source, now: nat, run: seq<Step>, t: State, ttl: nat, delay: nat, i: nat)
    requires Reaches(source, State(now, Absent, map[], []), run, t)
    requires Prompt(source, State(now, Absent, map[], []), run, ttl, delay) && i < |t.answers|
    ensures Recent(source, t.answers[i], ttl + delay)
  {
    SoundRun(source, State(now, Absent, map[], []), run, t, ttl, delay);
  }

  /** With a zero TTL the entry never expires, so no bound holds: if the source
      leaves its first value for good, an answer arbitrarily late can still be it. */
  lemma ZeroTtlIsNeverRecent(source: Source, age: nat) returns (run: seq<Step>, t: State)
    requires forall u: nat :: u > 0 ==> source(u) != source(0)
    ensures Reaches(source, State(0, Absent, map[], []), run, t)
    ensures |t.answers| == 2 && !Recent(source, t.answers[1], age)
  {
    var s0 := State(0, Absent, map[], []);
    var s1 := Apply(source, s0, Get(0, false));
    var s2 := Apply(source, s1, Load(0, false));
    var s3 := Apply(source, s2, Save(0, 0, Done));
    var s4 := Apply(source, s3, Tick(age + 1));
    t := Apply(source, s4, Get(1, false));
    run := [Get(0, false), Load(0, false), Save(0, 0, Done), Tick(age + 1), Get(1, false)];
    assert Reaches(source, t, [], t);
    assert run[4..][1..] == [] && Reaches(source, s4, run[4..], t);
    assert run[3..][1..] == run[4..] && Reaches(source, s3, run[3..], t);
    assert run[2..][1..] == run[3..] && Reaches(source, s2, run[2..], t);
    assert run[1..][1..] == run[2..] && Reaches(source, s1, run[1..], t);
    assert t.answers[1] == Answer(source(0), age + 1);
  }

  /** A saved value is served to a working `Get` at every later time before its TTL has
      passed, not from then on, and always with a zero TTL. */
  lemma SavedIsServed(source: Source, s: State, call: nat, ttl: nat, o: Outcome, later: nat, next: nat)
    requires Enabled(s, Save(call, ttl, o)) && o.Applied() && s.now <= later && next !in s.calls && next != call
    ensures var m := Apply(source, Apply(source, s, Save(call, ttl, o)), Tick(later));
            && Enabled(m, Get(next, false))
            && var t := Apply(source, m, Get(next, false));
               if ttl == 0 || later < s.now + ttl then t.answers == m.answers + [Answer(s.calls[call].value, later)]
               else t.answers == m.answers && next in t.calls && t.calls[next].Missed?
  {
  }

  /** What a call without interleaving gets: on a miss the source's value, now. */
  lemma MissLoads(source: Source, s: State, call: nat, ttl: nat, o: Outcome)
    requires !Fresh(s) && call !in s.calls
    ensures var missed := Apply(source, s, Get(call, false));
            && Enabled(missed, Load(call, false))
            && var loaded := Apply(source, missed, Load(call, false));
               && Enabled(loaded, Save(call, ttl, o))
               && var t := Apply(source, loaded, Save(call, ttl, o));
                  && t.answers == s.answers + [Answer(source(s.now), s.now)]
                  && t.entry == (if o.Refused? then s.entry
                                 else Entry(source(s.now), if ttl == 0 then Never else At(s.now + ttl), s.now))
  {
  }

  /** How reading a present entry goes. `Get` decodes into the caller's model, so an
      entry that cannot be decoded may leave it partly written. */
  datatype Reading = Fine | Unreachable | Undecodable(partial: Value)

  class Cache {
    var entry: Entry
    var now: nat

    constructor (now: nat)
      ensures entry == Absent && this.now == now
    {
      entry, this.now := Absent, now;
    }

    /** An entry that is there and has not expired. */
    predicate Readable()
      reads this
    {
      entry.Entry? && (entry.expiry.Never? || now < entry.expiry.time)
    }

    /** `Wrap` in one go: serve an entry that can be read; otherwise ask the source,
        hand its value over even if saving it then fails, and return the save's
        error. If the source fails too, the model is what `Get` left of it. */
    method Wrap(model: Value, reading: Reading, loaded: Value, loadFails: bool, ttl: nat, o: Outcome)
      returns (model': Value, err: bool)
      modifies `entry
      ensures var hit := old(Readable()) && reading.Fine?;
              && (hit ==> !err && model' == old(entry).value && entry == old(entry))
              && (!hit && loadFails ==> err && entry == old(entry))
              && (!hit && loadFails ==>
                    model' == if old(Readable()) && reading.Undecodable? then reading.partial else model)
              && (!hit && !loadFails ==> model' == loaded && err == o.Errored())
              && (!hit && !loadFails && o.Refused? ==> entry == old(entry))
              && (!hit && !loadFails && o.Applied() ==>
                    entry == Entry(loaded, if ttl == 0 then Never else At(now + ttl), now))
    {
      model' := model;
      if entry.Entry? && (entry.expiry.Never? || now < entry.expiry.time) {
        match reading {
          case Fine => return entry.value, false;
          case Undecodable(partial) => model' := partial;
          case Unreachable =>
        }
      }
      if loadFails {
        return model', true;
      }
      model' := loaded;
      if o.Applied() {
        entry := Entry(loaded, if ttl == 0 then Never else At(now + ttl), now);
      }
      err := o.Errored();
    }
  }
}
