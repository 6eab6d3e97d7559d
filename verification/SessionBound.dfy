/** How many live sessions a user can have, and whose sessions a call touches. */
module SessionBound {
  import opened Basics
  import opened Sessions
  import opened SessionProtocol

  /** The user's calls that are somewhere inside `Insert`. */
  ghost function Overlapping(s: State, u: User): set<nat> {
    set c | c in s.calls && s.calls[c].row.user == u && BeforeInsert(s.calls[c])
  }

  /** Those between revoke-by-user and the insert itself. */
  ghost function BetweenWrites(s: State, u: User): set<nat> {
    set c | c in s.calls && s.calls[c].row.user == u && s.calls[c].phase.Inserting?
  }

  ghost function LiveSessions(s: State, u: User): set<Hash> {
    LiveOf(Primary(s), u)
  }

  /** The step is the user's revoke-by-user, refused by the store. */
  ghost predicate RefusedRevocation(s: State, a: Step, u: User) {
    && a.Write? && a.call in s.calls && a.o.Refused?
    && s.calls[a.call].row.user == u && s.calls[a.call].phase.RevokingUser?
  }

  /** At most `limit` of the user's `Insert` calls overlap at any time, and none
      of its revocations is refused. */
  ghost predicate Moderate(s: State, run: seq<Step>, u: User, limit: nat)
    decreases |run|
  {
    && |Overlapping(s, u)| <= limit
    && (run != [] && Enabled(s, run[0]) ==>
          !RefusedRevocation(s, run[0], u) && Moderate(Apply(s, run[0]), run[1..], u, limit))
  }

  ghost predicate Bounded(s: State, u: User, limit: nat) {
    |LiveSessions(s, u)| + |BetweenWrites(s, u)| <= limit
  }

  /** No write but the user's own insert adds a live session. */
  lemma LiveShrinks(s: State, op: Op, t: State, u: User)
    requires t.log == s.log + [op]
    ensures !(op.InsertRow? && op.row.user == u) ==> LiveSessions(t, u) <= LiveSessions(s, u)
    ensures op.InsertRow? && op.row.user == u ==> LiveSessions(t, u) <= LiveSessions(s, u) + {op.row.token}
    ensures op == RevokeUser(u) ==> LiveSessions(t, u) == {}
  {
    PrimaryAppend(s, t, op);
  }

  lemma BoundWrite(s: State, a: Step, u: User, limit: nat)
    requires Inv(s) && Enabled(s, a) && a.Write?
    requires Bounded(s, u, limit) && !RefusedRevocation(s, a, u)
    requires |Overlapping(Apply(s, a), u)| <= limit
    ensures Bounded(Apply(s, a), u, limit)
  {
    var t := Apply(s, a);
    var c := s.calls[a.call];
    if a.o.Applied() {
      LiveShrinks(s, NextOp(c), t, u);
    }
    if c.row.user != u || c.phase.RevokingNew? || c.phase.RevokingOld? {
      assert BetweenWrites(t, u) == BetweenWrites(s, u);
      SubsetSize(LiveSessions(t, u), LiveSessions(s, u));
    } else if c.phase.RevokingUser? {
      SubsetSize(BetweenWrites(t, u), Overlapping(t, u));
    } else {
      assert BetweenWrites(t, u) == BetweenWrites(s, u) - {a.call};
      SubsetSize(LiveSessions(t, u), LiveSessions(s, u) + {c.row.token});
    }
  }

  lemma BoundStep(s: State, a: Step, u: User, limit: nat)
    requires Inv(s) && Enabled(s, a)
    requires Bounded(s, u, limit) && !RefusedRevocation(s, a, u)
    requires |Overlapping(Apply(s, a), u)| <= limit
    ensures Bounded(Apply(s, a), u, limit)
  {
    var t := Apply(s, a);
    if a.Write? {
      BoundWrite(s, a, u, limit);
    } else {
      assert BetweenWrites(t, u) == BetweenWrites(s, u);
      if a.Logout? && a.o.Applied() {
        LiveShrinks(s, RevokeToken(Sha256(a.token.raw)), t, u);
        SubsetSize(LiveSessions(t, u), LiveSessions(s, u));
      }
    }
  }

  lemma {:induction false} BoundRun(s: State, run: seq<Step>, t: State, u: User, limit: nat)
    requires Inv(s) && Reaches(s, run, t) && Moderate(s, run, u, limit) && Bounded(s, u, limit)
    ensures Bounded(t, u, limit)
    decreases |run|
  {
    if run != [] {
      var m := Apply(s, run[0]);
      assert Moderate(m, run[1..], u, limit);
      BoundStep(s, run[0], u, limit);
      InvStep(s, run[0]);
      BoundRun(m, run[1..], t, u, limit);
    }
  }

  /** A user whose `Insert` calls overlap at most `limit` deep has at most `limit`
      live sessions, counting the calls that are about to insert one. With
      `limit` one, calls in sequence, that is at most one live session. */
  lemma LiveSessionsBounded(s: State, run: seq<Step>, t: State, u: User, limit: nat)
    requires Init(s) && Reaches(s, run, t) && Moderate(s, run, u, limit)
    ensures |LiveSessions(t, u)| + |BetweenWrites(t, u)| <= limit
  {
    assert LiveSessions(s, u) == {} && BetweenWrites(s, u) == {};
    BoundRun(s, run, t, u, limit);
  }

  /** A login or refresh, at any of its writes and in any interleaving, leaves the
      rows of all other users as they are. */
  lemma OtherUsersUntouched(s: State, run: seq<Step>, t: State, a: Step, h: Hash)
    requires Init(s) && Reaches(s, run, t) && Enabled(t, a) && a.Write?
    requires h in Primary(t) && Primary(t)[h].user != t.calls[a.call].row.user
    ensures h in Primary(Apply(t, a)) && Primary(Apply(t, a))[h] == Primary(t)[h]
  {
    InvRun(s, run, t);
    var c := t.calls[a.call];
    assert CallOk(t, c);
    if a.o.Applied() {
      PrimaryAppend(t, Apply(t, a), NextOp(c));
    }
  }
}
