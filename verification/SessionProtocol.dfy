/** Login, refresh and logout as a step machine over the primary's log and a
    replica that shows a growing prefix of it. `Insert` is three separate writes,
    so calls interleave between them, and each write may be refused or applied
    with its reply lost. */
module SessionProtocol {
  import opened Basics
  import opened Outcomes
  import opened Sessions

  datatype Kind = Login | Refresh(prior: Hash)

  datatype Phase = RevokingNew | RevokingUser | Inserting | RevokingOld(prior: Hash) | Finished(ok: bool)

  /** A call past its checks, holding the row it is about to store. `killed` says
      that one of its two revocations of the old token was applied. */
  datatype Call = Call(kind: Kind, row: Session, phase: Phase, killed: bool)

  datatype State = State(
    log: seq<Op>,
    replica: nat,
    calls: map<nat, Call>,
    now: int,
    tokens: set<Jwt>,
    raws: set<Raw>,
    lifetime: int)

  datatype Step =
    | Tick(to: int)
    | Replicate(upTo: nat)
    | BeginLogin(call: nat, user: User, raw: Raw, stored: int)
    | BeginRefresh(call: nat, token: Jwt, raw: Raw, stored: int)
    | Write(call: nat, o: Outcome)
    | Logout(token: Jwt, o: Outcome)

  function Primary(s: State): Table {
    Replay(s.log)
  }

  function Replica(s: State): Table
    requires s.replica <= |s.log|
  {
    Replay(s.log[..s.replica])
  }

  /** What a refresh with `token` is told at this instant. */
  function RefreshCheck(s: State, token: Jwt): Check
    requires s.replica <= |s.log|
  {
    if !ValidToken(token, s.now) then Invalid
    else ValidateSession(Replica(s), Sha256(token.raw), s.now)
  }

  ghost predicate Enabled(s: State, a: Step) {
    && s.replica <= |s.log|
    && match a
       case Tick(to) => s.now <= to
       case Replicate(upTo) => s.replica <= upTo <= |s.log|
       case BeginLogin(call, _, raw, stored) =>
         call !in s.calls && raw !in s.raws && s.now <= stored
       case BeginRefresh(call, token, raw, stored) =>
         && call !in s.calls && raw !in s.raws && s.now <= stored
         && token in s.tokens && RefreshCheck(s, token).Found?
       case Write(call, o) =>
         && call in s.calls && !s.calls[call].phase.Finished?
         && (s.calls[call].phase.Inserting? && s.calls[call].row.token in Primary(s) ==> o.Refused?)
       case Logout(token, _) => token in s.tokens && ValidToken(token, s.now)
  }

  /** `createSession` up to its first write: the token is signed at `s.now`, the
      row stamped at `stored`. */
  function Begin(s: State, call: nat, kind: Kind, user: User, raw: Raw, stored: int): State {
    s.(calls := s.calls[call := Call(kind, NewSession(user, raw, stored, s.lifetime), RevokingNew, false)],
       now := stored,
       tokens := s.tokens + {GenerateRefreshToken(raw, s.now, s.lifetime)},
       raws := s.raws + {raw})
  }

  /** The write a call does next. */
  function NextOp(c: Call): Op
    requires !c.phase.Finished?
  {
    match c.phase
    case RevokingNew => RevokeToken(c.row.token)
    case RevokingUser => RevokeUser(c.row.user)
    case Inserting => InsertRow(c.row)
    case RevokingOld(prior) => RevokeToken(prior)
  }

  /** Revocation errors are ignored; an insert error ends the call. */
  function NextCall(c: Call, o: Outcome): Call {
    match c.phase
    case RevokingNew => c.(phase := RevokingUser)
    case RevokingUser => c.(phase := Inserting, killed := c.killed || (c.kind.Refresh? && o.Applied()))
    case Inserting =>
      c.(phase := if o.Errored() then Finished(false)
                  else if c.kind.Refresh? then RevokingOld(c.kind.prior) else Finished(true))
    case RevokingOld(_) => c.(phase := Finished(true), killed := c.killed || o.Applied())
    case Finished(_) => c
  }

  ghost function Apply(s: State, a: Step): State
    requires Enabled(s, a)
  {
    match a
    case Tick(to) => s.(now := to)
    case Replicate(upTo) => s.(replica := upTo)
    case BeginLogin(call, user, raw, stored) => Begin(s, call, Login, user, raw, stored)
    case BeginRefresh(call, token, raw, stored) =>
      Begin(s, call, Refresh(Sha256(token.raw)), RefreshCheck(s, token).row.user, raw, stored)
    case Write(call, o) =>
      var c := s.calls[call];
      s.(log := if o.Applied() then s.log + [NextOp(c)] else s.log,
         calls := s.calls[call := NextCall(c, o)])
    case Logout(token, o) =>
      s.(log := if o.Applied() then s.log + [RevokeToken(Sha256(token.raw))] else s.log)
  }

  ghost predicate Reaches(s: State, run: seq<Step>, t: State)
    decreases |run|
  {
    if run == [] then s == t
    else Enabled(s, run[0]) && Reaches(Apply(s, run[0]), run[1..], t)
  }

  predicate Init(s: State) {
    s.log == [] && s.replica == 0 && s.calls == map[] && s.tokens == {} && s.raws == {}
  }

  // ----- The invariant -----

  predicate BeforeInsert(c: Call) {
    c.phase.RevokingNew? || c.phase.RevokingUser? || c.phase.Inserting?
  }

  /** `row` outlives every token that names it. */
  ghost predicate Outlives(s: State, row: Session) {
    && row.token.raw in s.raws && !row.revoked && !row.deleted
    && forall j :: j in s.tokens && j.raw == row.token.raw ==> j.exp <= row.expiresAt
  }

  ghost predicate CallOk(s: State, c: Call) {
    && (c.phase.RevokingOld? ==> c.kind == Refresh(c.phase.prior))
    && Outlives(s, c.row)
    && (BeforeInsert(c) ==> c.row.token !in Primary(s))
    && (c.kind.Refresh? ==>
          && c.kind.prior in Primary(s) && c.kind.prior != c.row.token
          && Primary(s)[c.kind.prior].user == c.row.user
          && (c.killed ==> Primary(s)[c.kind.prior].deleted))
  }

  ghost predicate Inv(s: State) {
    && s.replica <= |s.log|
    && (forall j :: j in s.tokens ==> j.raw in s.raws)
    && (forall i :: 0 <= i < |s.log| && s.log[i].InsertRow? ==> Outlives(s, s.log[i].row))
    && (forall call :: call in s.calls ==> CallOk(s, s.calls[call]))
    && (forall c, d :: c in s.calls && d in s.calls && s.calls[c].row.token == s.calls[d].row.token ==> c == d)
  }

  lemma TruncationOrder(a: int, b: int)
    requires a <= b
    ensures WholeSeconds(a) <= WholeMicros(b)
  {
    var k, l := 1_000_000 * (a / SECOND), b / MICRO;
    assert WholeSeconds(a) == MICRO * k;
    assert WholeMicros(b) == MICRO * l;
    assert MICRO * k <= b < MICRO * (l + 1);
  }

  lemma TokenRowsExist(s: State, h: Hash)
    requires Inv(s) && h in Primary(s)
    ensures h.raw in s.raws
  {
    var i := RowWasInserted(s.log, h);
  }

  lemma InvBegin(s: State, call: nat, kind: Kind, user: User, raw: Raw, stored: int)
    requires Inv(s) && call !in s.calls && raw !in s.raws && s.now <= stored
    requires kind.Refresh? ==> kind.prior in Primary(s) && Primary(s)[kind.prior].user == user
    ensures Inv(Begin(s, call, kind, user, raw, stored))
  {
    var t := Begin(s, call, kind, user, raw, stored);
    TruncationOrder(s.now + s.lifetime, stored + s.lifetime);
    forall row: Session | Outlives(s, row)
      ensures Outlives(t, row)
    {
    }
    forall c | c in t.calls
      ensures CallOk(t, t.calls[c])
    {
      if c == call {
        if Sha256(raw) in Primary(s) {
          TokenRowsExist(s, Sha256(raw));
        }
        if kind.Refresh? {
          TokenRowsExist(s, kind.prior);
        }
      } else {
        assert CallOk(s, s.calls[c]);
      }
    }
    forall c | c in s.calls
      ensures t.calls[c] == s.calls[c] && s.calls[c].row.token.raw != raw
    {
      assert CallOk(s, s.calls[c]);
    }
  }

  /** What one more operation does to the table, as far as the invariant needs. */
  lemma PrimaryAppend(s: State, t: State, op: Op)
    requires t.log == s.log + [op]
    ensures Primary(t) == ApplyOp(Primary(s), op)
    ensures forall h :: h in Primary(s) ==>
              && h in Primary(t) && Primary(t)[h].user == Primary(s)[h].user
              && (Primary(s)[h].deleted ==> Primary(t)[h].deleted)
  {
    ReplayAppend(s.log, op);
  }

  lemma InvLogout(s: State, a: Step)
    requires Inv(s) && Enabled(s, a) && a.Logout?
    ensures Inv(Apply(s, a))
  {
    var t := Apply(s, a);
    if a.o.Applied() {
      PrimaryAppend(s, t, RevokeToken(Sha256(a.token.raw)));
    }
    forall call | call in t.calls
      ensures CallOk(t, t.calls[call])
    {
      assert CallOk(s, s.calls[call]) && Outlives(t, s.calls[call].row);
    }
    forall i | 0 <= i < |t.log| && t.log[i].InsertRow?
      ensures Outlives(t, t.log[i].row)
    {
      assert Outlives(s, s.log[i].row);
    }
  }

  lemma InvWrite(s: State, a: Step)
    requires Inv(s) && Enabled(s, a) && a.Write?
    ensures Inv(Apply(s, a))
  {
    var t := Apply(s, a);
    var c := s.calls[a.call];
    assert CallOk(s, c);
    if a.o.Applied() {
      PrimaryAppend(s, t, NextOp(c));
    }
    forall row: Session | Outlives(s, row)
      ensures Outlives(t, row)
    {
    }
    forall call | call in t.calls
      ensures CallOk(t, t.calls[call])
    {
      assert CallOk(s, s.calls[call]);
      if call == a.call {
        WriteKeepsCall(s, a);
      } else {
        assert s.calls[call].row.token != c.row.token;
      }
    }
    forall i | 0 <= i < |t.log| && t.log[i].InsertRow?
      ensures Outlives(t, t.log[i].row)
    {
      if i < |s.log| {
        assert Outlives(s, s.log[i].row);
      }
    }
  }

  lemma WriteKeepsCall(s: State, a: Step)
    requires Inv(s) && Enabled(s, a) && a.Write?
    ensures CallOk(Apply(s, a), Apply(s, a).calls[a.call])
  {
    var t := Apply(s, a);
    var c := s.calls[a.call];
    assert CallOk(s, c) && Outlives(t, c.row);
    if a.o.Applied() {
      PrimaryAppend(s, t, NextOp(c));
    }
  }

  lemma InvStep(s: State, a: Step)
    requires Inv(s) && Enabled(s, a)
    ensures Inv(Apply(s, a))
  {
    match a
    case Tick(_) => SameTable(s, Apply(s, a));
    case Replicate(_) => SameTable(s, Apply(s, a));
    case BeginLogin(call, user, raw, stored) => InvBegin(s, call, Login, user, raw, stored);
    case BeginRefresh(call, token, raw, stored) =>
      RowsOnlyDie(s.log, s.replica, Sha256(token.raw));
      InvBegin(s, call, Refresh(Sha256(token.raw)), RefreshCheck(s, token).row.user, raw, stored);
    case Write(_, _) => InvWrite(s, a);
    case Logout(_, _) => InvLogout(s, a);
  }

  lemma SameTable(s: State, t: State)
    requires Inv(s) && t == s.(now := t.now, replica := t.replica) && t.replica <= |t.log|
    ensures Inv(t)
  {
    forall call | call in t.calls
      ensures CallOk(t, t.calls[call])
    {
      assert CallOk(s, s.calls[call]) && Outlives(t, s.calls[call].row);
    }
    forall i | 0 <= i < |t.log| && t.log[i].InsertRow?
      ensures Outlives(t, t.log[i].row)
    {
      assert Outlives(s, s.log[i].row);
    }
  }

  lemma {:induction false} InvRun(s: State, run: seq<Step>, t: State)
    requires Inv(s) && Reaches(s, run, t)
    ensures Inv(t)
    decreases |run|
  {
    if run != [] {
      InvStep(s, run[0]);
      InvRun(Apply(s, run[0]), run[1..], t);
    }
  }

  lemma {:induction false} LogGrows(s: State, run: seq<Step>, t: State)
    requires s.replica <= |s.log| && Reaches(s, run, t)
    ensures s.log <= t.log && s.replica <= t.replica <= |t.log|
    decreases |run|
  {
    if run != [] {
      LogGrows(Apply(s, run[0]), run[1..], t);
    }
  }

  // ----- Main results -----

  /** Once the replica shows a token's row as revoked, a refresh with that token
      is refused there and in every continuation. */
  lemma RevocationIsFinal(s: State, run: seq<Step>, t: State, token: Jwt)
    requires s.replica <= |s.log| && Reaches(s, run, t)
    requires Dead(Replica(s), Sha256(token.raw))
    ensures t.replica <= |t.log| && RefreshCheck(t, token) == Invalid
    ensures forall call, raw, stored :: !Enabled(t, BeginRefresh(call, token, raw, stored))
  {
    LogGrows(s, run, t);
    assert t.log[..t.replica][..s.replica] == s.log[..s.replica];
    RowsOnlyDie(t.log[..t.replica], s.replica, Sha256(token.raw));
  }

  /** A refresh kills the presented token on the primary, then and in every
      continuation, as soon as one of its two revocations was applied. */
  lemma RefreshKillsItsToken(s: State, run: seq<Step>, m: State, rest: seq<Step>, t: State, call: nat)
    requires Init(s) && Reaches(s, run, m) && Reaches(m, rest, t)
    requires call in m.calls && m.calls[call].kind.Refresh? && m.calls[call].killed
    ensures Dead(Primary(t), m.calls[call].kind.prior)
  {
    InvRun(s, run, m);
    assert CallOk(m, m.calls[call]);
    LogGrows(m, rest, t);
    assert t.log[..|m.log|] == m.log;
    RowsOnlyDie(t.log, |m.log|, m.calls[call].kind.prior);
  }

  /** On every table a run produces, on the primary or on any replica, a revoked
      row is soft-deleted, and a row lives at least as long as the tokens naming
      it. So after `ValidateToken` has accepted, `validateSession` at the same
      clock reading answers neither "revoked" nor "expired". */
  lemma NeverRevokedNorExpired(s: State, run: seq<Step>, t: State, token: Jwt, k: nat)
    requires Init(s) && Reaches(s, run, t) && token in t.tokens && k <= |t.log|
    ensures forall h :: h in Replay(t.log[..k]) && Replay(t.log[..k])[h].revoked ==> Replay(t.log[..k])[h].deleted
    ensures Sha256(token.raw) in Replay(t.log[..k]) ==>
              token.exp <= Replay(t.log[..k])[Sha256(token.raw)].expiresAt
    ensures ValidToken(token, t.now) ==>
              var c := ValidateSession(Replay(t.log[..k]), Sha256(token.raw), t.now); c.Found? || c.Invalid?
  {
    InvRun(s, run, t);
    var table := Replay(t.log[..k]);
    forall h | h in table
      ensures table[h].revoked ==> table[h].deleted
      ensures h == Sha256(token.raw) ==> token.exp <= table[h].expiresAt
    {
      var i := RowWasInserted(t.log[..k], h);
      assert Outlives(t, t.log[i].row);
    }
  }

  // ----- Exchanging one token twice -----

  /** A refresh in progress or finished found its token on the replica. */
  ghost predicate PriorsSeen(s: State) {
    && s.replica <= |s.log|
    && forall call :: call in s.calls && s.calls[call].kind.Refresh? ==> s.calls[call].kind.prior in Replica(s)
  }

  lemma PriorsSeenStep(s: State, a: Step)
    requires PriorsSeen(s) && Enabled(s, a)
    ensures PriorsSeen(Apply(s, a))
  {
    var t := Apply(s, a);
    assert s.log <= t.log && s.replica <= t.replica <= |t.log|;
    assert t.log[..t.replica][..s.replica] == t.log[..s.replica] == s.log[..s.replica];
    forall h | h in Replica(s) ensures h in Replica(t) {
      RowsOnlyDie(t.log[..t.replica], s.replica, h);
    }
  }

  lemma {:induction false} PriorsSeenRun(s: State, run: seq<Step>, t: State)
    requires PriorsSeen(s) && Reaches(s, run, t)
    ensures PriorsSeen(t)
    decreases |run|
  {
    if run != [] {
      PriorsSeenStep(s, run[0]);
      PriorsSeenRun(Apply(s, run[0]), run[1..], t);
    }
  }

  /** A refresh with a token this service signed is accepted exactly if the token
      is unexpired and its row is live on the replica. */
  lemma AcceptedExactly(s: State, run: seq<Step>, t: State, token: Jwt)
    requires Init(s) && Reaches(s, run, t) && token in t.tokens
    ensures t.replica <= |t.log|
    ensures RefreshCheck(t, token).Found? <==> ValidToken(token, t.now) && Live(Replica(t), Sha256(token.raw))
  {
    InvRun(s, run, t);
    NeverRevokedNorExpired(s, run, t, token, t.replica);
  }

  /** After a refresh with `token` was begun, another one with the same token is
      accepted exactly while the token is unexpired and the replica does not show
      its revocation. If the first one killed it, a replica that has caught up
      does show that. */
  lemma ReuseExactly(s: State, run: seq<Step>, t: State, call: nat, token: Jwt, next: nat, raw: Raw, stored: int)
    requires Init(s) && Reaches(s, run, t)
    requires call in t.calls && t.calls[call].kind == Refresh(Sha256(token.raw))
    requires token in t.tokens && next !in t.calls && raw !in t.raws && t.now <= stored
    ensures t.replica <= |t.log|
    ensures Enabled(t, BeginRefresh(next, token, raw, stored)) <==>
            ValidToken(token, t.now) && !Dead(Replica(t), Sha256(token.raw))
    ensures t.calls[call].killed && t.replica == |t.log| ==> !Enabled(t, BeginRefresh(next, token, raw, stored))
  {
    AcceptedExactly(s, run, t, token);
    PriorsSeenRun(s, run, t);
    if t.replica == |t.log| {
      InvRun(s, run, t);
      assert CallOk(t, t.calls[call]);
      assert t.log[..t.replica] == t.log;
    }
  }

  /** So rotation gives no bound by itself: as long as the replica stands still, a
      token accepted once is accepted again until it expires, whatever refreshes
      and logouts with it were applied to the primary in between. */
  lemma ReusedWhileReplicaStands(s: State, run: seq<Step>, m: State, rest: seq<Step>, t: State, token: Jwt)
    requires Init(s) && Reaches(s, run, m) && RefreshesWith(m, token)
    requires Reaches(m, rest, t) && t.replica == m.replica
    ensures t.replica <= |t.log|
    ensures RefreshCheck(t, token).Found? <==> ValidToken(token, t.now)
  {
    AcceptedExactly(s, run, m, token);
    LogGrows(m, rest, t);
    TokensGrow(m, rest, t);
    Concatenate(s, run, m, rest, t);
    AcceptedExactly(s, run + rest, t, token);
    assert t.log[..t.replica] == m.log[..m.replica];
  }

  ghost predicate RefreshesWith(s: State, token: Jwt) {
    token in s.tokens && s.replica <= |s.log| && RefreshCheck(s, token).Found?
  }

  lemma {:induction false} TokensGrow(s: State, run: seq<Step>, t: State)
    requires Reaches(s, run, t)
    ensures s.tokens <= t.tokens
    decreases |run|
  {
    if run != [] {
      TokensGrow(Apply(s, run[0]), run[1..], t);
    }
  }

  lemma {:induction false} Concatenate(s: State, first: seq<Step>, m: State, second: seq<Step>, t: State)
    requires Reaches(s, first, m) && Reaches(m, second, t)
    ensures Reaches(s, first + second, t)
    decreases |first|
  {
    if first == [] {
      assert first + second == second;
    } else {
      assert (first + second)[1..] == first[1..] + second;
      Concatenate(Apply(s, first[0]), first[1..], m, second, t);
    }
  }

  // ----- From issue to use -----

  lemma {:induction false} TimePasses(s: State, run: seq<Step>, t: State)
    requires Reaches(s, run, t)
    ensures s.now <= t.now && s.lifetime == t.lifetime
    decreases |run|
  {
    if run != [] {
      TimePasses(Apply(s, run[0]), run[1..], t);
    }
  }

  /** A login or refresh begun in `m` signs a token. In every continuation that token
      is accepted exactly while the replica shows its row live and the second in
      which its lifetime ends has not come. */
  lemma IssuedTokenIsAccepted(s: State, run: seq<Step>, m: State, a: Step, rest: seq<Step>, t: State, token: Jwt)
    requires Init(s) && Reaches(s, run, m) && Enabled(m, a) && (a.BeginLogin? || a.BeginRefresh?)
    requires Reaches(Apply(m, a), rest, t) && token == GenerateRefreshToken(a.raw, m.now, m.lifetime)
    ensures token in t.tokens && t.replica <= |t.log|
    ensures RefreshCheck(t, token).Found? <==>
            && t.now < m.now + m.lifetime - (m.now + m.lifetime) % 1_000_000_000
            && Live(Replica(t), Sha256(a.raw))
  {
    var b := Apply(m, a);
    TokensGrow(b, rest, t);
    TimePasses(b, rest, t);
    assert Reaches(m, [a] + rest, t) by {
      assert ([a] + rest)[1..] == rest;
    }
    Concatenate(s, run, m, [a] + rest, t);
    AcceptedExactly(s, run + ([a] + rest), t, token);
    IssuedTokenWindow(a.raw, m.now, m.lifetime, t.now);
  }

  /** Replication can always catch up, and then shows what the primary has. */
  lemma ReplicaCatchesUp(s: State)
    requires s.replica <= |s.log|
    ensures Enabled(s, Replicate(|s.log|)) && Apply(s, Replicate(|s.log|)).replica == |s.log|
    ensures Replica(Apply(s, Replicate(|s.log|))) == Primary(s)
  {
    assert s.log[..|s.log|] == s.log;
  }

  /** `Logout` kills the row of its token on the primary for good, if it is there. */
  lemma LogoutKillsItsToken(s: State, a: Step, rest: seq<Step>, t: State)
    requires s.replica <= |s.log| && Enabled(s, a) && a.Logout? && a.o.Applied()
    requires Sha256(a.token.raw) in Primary(s) && Reaches(Apply(s, a), rest, t)
    ensures Dead(Primary(t), Sha256(a.token.raw))
  {
    var m, h := Apply(s, a), Sha256(a.token.raw);
    PrimaryAppend(s, m, RevokeToken(h));
    LogGrows(m, rest, t);
    assert t.log[..|m.log|] == m.log;
    RowsOnlyDie(t.log, |m.log|, h);
  }

  function If(o: Outcome, op: Op): seq<Op> {
    if o.Applied() then [op] else []
  }

  /** The call after one more write, with nothing in between. */
  ghost predicate Wrote(s: State, t: State, call: nat, phase: Phase, ops: seq<Op>) {
    && call in s.calls && call in t.calls && t.replica <= |t.log|
    && t.calls == s.calls[call := s.calls[call].(phase := phase, killed := t.calls[call].killed)]
    && t.log == s.log + ops
  }

  lemma OneWrite(s: State, call: nat, o: Outcome) returns (t: State)
    requires Enabled(s, Write(call, o))
    ensures t == Apply(s, Write(call, o)) && Reaches(s, [Write(call, o)], t)
    ensures var c := s.calls[call];
            && (c.phase.RevokingNew? ==> Wrote(s, t, call, RevokingUser, If(o, RevokeToken(c.row.token))))
            && (c.phase.RevokingUser? ==> Wrote(s, t, call, Inserting, If(o, RevokeUser(c.row.user))))
            && (c.phase.Inserting? ==>
                  Wrote(s, t, call,
                        if o.Errored() then Finished(false)
                        else if c.kind.Refresh? then RevokingOld(c.kind.prior) else Finished(true),
                        If(o, InsertRow(c.row))))
            && (c.phase.RevokingOld? ==> Wrote(s, t, call, Finished(true), If(o, RevokeToken(c.phase.prior))))
  {
    t := Apply(s, Write(call, o));
    assert Reaches(t, [Write(call, o)][1..], t);
  }

  lemma NoNewRows(s: State, t: State, ops: seq<Op>, h: Hash)
    requires t.log == s.log + ops && |ops| <= 1 && (ops == [] || !ops[0].InsertRow?)
    ensures h in Primary(t) ==> h in Primary(s)
  {
    if ops == [] {
      assert t.log == s.log;
    } else {
      assert ops == [ops[0]];
      ReplayAppend(s.log, ops[0]);
    }
  }

  lemma RevokesInOrder(s: State, call: nat, byToken: Outcome, byUser: Outcome) returns (run: seq<Step>, t: State)
    requires s.replica <= |s.log| && call in s.calls && s.calls[call].phase.RevokingNew?
    ensures Reaches(s, run, t)
    ensures var c := s.calls[call];
            && Wrote(s, t, call, Inserting, If(byToken, RevokeToken(c.row.token)) + If(byUser, RevokeUser(c.row.user)))
            && (c.row.token in Primary(t) ==> c.row.token in Primary(s))
  {
    var c := s.calls[call];
    var m := OneWrite(s, call, byToken);
    t := OneWrite(m, call, byUser);
    NoNewRows(s, m, If(byToken, RevokeToken(c.row.token)), c.row.token);
    NoNewRows(m, t, If(byUser, RevokeUser(c.row.user)), c.row.token);
    run := [Write(call, byToken)] + [Write(call, byUser)];
    Concatenate(s, [Write(call, byToken)], m, [Write(call, byUser)], t);
  }

  /** The three writes of `Insert`. */
  lemma InsertInOrder(s: State, call: nat, byToken: Outcome, byUser: Outcome, insert: Outcome)
    returns (run: seq<Step>, t: State)
    requires s.replica <= |s.log| && call in s.calls && s.calls[call].phase.RevokingNew?
    requires s.calls[call].row.token in Primary(s) ==> insert.Refused?
    ensures Reaches(s, run, t)
    ensures var c := s.calls[call];
            Wrote(s, t, call,
                  if insert.Errored() then Finished(false)
                  else if c.kind.Refresh? then RevokingOld(c.kind.prior) else Finished(true),
                  If(byToken, RevokeToken(c.row.token)) + If(byUser, RevokeUser(c.row.user))
                  + If(insert, InsertRow(c.row)))
  {
    var first, m := RevokesInOrder(s, call, byToken, byUser);
    t := OneWrite(m, call, insert);
    run := first + [Write(call, insert)];
    Concatenate(s, first, m, [Write(call, insert)], t);
  }

  /** The writes of one call in order, when nothing interleaves: revoke the new token,
      revoke the user's sessions, insert, and for a refresh revoke the old token. It
      ends well exactly if the insert was acknowledged. */
  lemma WritesInOrder(s: State, call: nat, byToken: Outcome, byUser: Outcome, insert: Outcome, byPrior: Outcome)
    returns (run: seq<Step>, t: State)
    requires s.replica <= |s.log| && call in s.calls && s.calls[call].phase.RevokingNew?
    requires s.calls[call].row.token in Primary(s) ==> insert.Refused?
    ensures Reaches(s, run, t)
    ensures var c := s.calls[call];
            Wrote(s, t, call, Finished(insert.Done?),
                  If(byToken, RevokeToken(c.row.token)) + If(byUser, RevokeUser(c.row.user))
                  + If(insert, InsertRow(c.row))
                  + (if c.kind.Refresh? && insert.Done? then If(byPrior, RevokeToken(c.kind.prior)) else []))
  {
    run, t := InsertInOrder(s, call, byToken, byUser, insert);
    if s.calls[call].kind.Refresh? && insert.Done? {
      var m := t;
      t := OneWrite(m, call, byPrior);
      Concatenate(s, run, m, [Write(call, byPrior)], t);
      run := run + [Write(call, byPrior)];
    }
  }
}
