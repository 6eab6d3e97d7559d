/** The session repository and the auth manager run without interleaving, over a
    mutable table and the copy of it that the replica shows. */
module AuthService {
  import opened Outcomes
  import opened Sessions

  function After(t: Table, op: Op, o: Outcome): Table {
    if o.Applied() then ApplyOp(t, op) else t
  }

  /** `Insert`: revoke the token, revoke the user's sessions, insert the row. */
  function Inserted(t: Table, row: Session, byToken: Outcome, byUser: Outcome, insert: Outcome): Table {
    var t1 := After(t, RevokeToken(row.token), byToken);
    var t2 := After(t1, RevokeUser(row.user), byUser);
    After(t2, InsertRow(row), insert)
  }

  /** What `Insert` does to the rows that were there and to the new one. */
  lemma InsertedMeans(t: Table, row: Session, byToken: Outcome, byUser: Outcome, insert: Outcome, h: Hash)
    requires row.token !in t
    ensures h in Inserted(t, row, byToken, byUser, insert) <==> h in t || (h == row.token && insert.Applied())
    ensures insert.Applied() ==> Inserted(t, row, byToken, byUser, insert)[row.token] == row
    ensures h in t ==>
              Inserted(t, row, byToken, byUser, insert)[h] ==
              if t[h].user == row.user && !t[h].deleted && byUser.Applied()
              then Session(row.user, t[h].token, t[h].expiresAt, true, true) else t[h]
  {
  }

  class SessionRepository {
    var rows: Table
    var replica: Table
    ghost var log: seq<Op>
    ghost var shown: nat

    /** The rows are the replay of the log, the replica's that of a prefix. */
    ghost predicate Valid()
      reads this
    {
      shown <= |log| && rows == Replay(log) && replica == Replay(log[..shown])
    }

    constructor ()
      ensures Valid() && rows == map[] && replica == map[]
    {
      rows, replica := map[], map[];
      log, shown := [], 0;
    }

    /** The write is appended to the log the replica follows. */
    ghost method Append(op: Op)
      requires shown <= |log| && replica == Replay(log[..shown])
      modifies `log
      ensures log == old(log) + [op] && Replay(log) == ApplyOp(Replay(old(log)), op)
      ensures replica == Replay(log[..shown])
    {
      ReplayAppend(log, op);
      log := log + [op];
      assert log[..shown] == old(log)[..shown];
    }

    method RevokeByToken(h: Hash, o: Outcome) returns (err: bool)
      requires Valid()
      modifies `rows, `log
      ensures Valid() && old(log) <= log
      ensures rows == After(old(rows), RevokeToken(h), o) && err == o.Errored()
    {
      if o.Applied() {
        if h in rows && !rows[h].deleted {
          rows := rows[h := rows[h].(revoked := true, deleted := true)];
        }
        Append(RevokeToken(h));
      }
      err := o.Errored();
    }

    method RevokeByUserID(u: User, o: Outcome) returns (err: bool)
      requires Valid()
      modifies `rows, `log
      ensures Valid() && old(log) <= log
      ensures rows == After(old(rows), RevokeUser(u), o) && err == o.Errored()
    {
      if o.Applied() {
        rows := map h | h in rows ::
          if rows[h].user == u && !rows[h].deleted then rows[h].(revoked := true, deleted := true) else rows[h];
        assert rows == ApplyOp(old(rows), RevokeUser(u));
        Append(RevokeUser(u));
      }
      err := o.Errored();
    }

    /** The errors of the two revocations are dropped. A token already in the
        table violates its UNIQUE constraint. */
    method Insert(row: Session, byToken: Outcome, byUser: Outcome, insert: Outcome) returns (ok: bool)
      requires Valid()
      modifies `rows, `log
      ensures Valid() && old(log) <= log
      ensures rows == Inserted(old(rows), row, byToken, byUser, insert)
      ensures ok <==> insert.Done? && row.token !in old(rows)
    {
      var err := RevokeByToken(row.token, byToken);
      err := RevokeByUserID(row.user, byUser);
      assert rows.Keys == old(rows).Keys;
      ok := insert.Done? && row.token !in rows;
      if insert.Applied() {
        if row.token !in rows {
          rows := rows[row.token := row];
        }
        Append(InsertRow(row));
      }
    }

    /** The replica has seen all writes. */
    method CatchUp()
      requires Valid()
      modifies `replica, `shown
      ensures Valid() && replica == rows
    {
      replica := rows;
      shown := |log|;
      assert log[..shown] == log;
    }

    /** `failing` says that the replica's query errors. */
    method FindByToken(h: Hash, failing: bool) returns (r: Lookup<Session>)
      requires Valid()
      ensures r.QueryFailed? <==> failing
      ensures r.Row? <==> !failing && Live(replica, h)
      ensures r.Row? ==> r.row == replica[h]
    {
      if failing {
        return QueryFailed;
      }
      r := if h in replica && !replica[h].deleted then Row(replica[h]) else NoRows;
    }
  }

  /** What looking up one row brings. */
  datatype Lookup<T> = Row(row: T) | NoRows | QueryFailed

  /** What the password hasher says. */
  datatype Password = Right | Wrong | CheckFailed

  /** What a client sends: a token this service signed as a refresh token, or
      anything else, such as an access token, which carries no refresh claim. */
  datatype Presented = Refreshing(jwt: Jwt) | Other

  predicate Acceptable(p: Presented, now: int) {
    p.Refreshing? && ValidToken(p.jwt, now)
  }

  datatype Reply =
    | Issued(token: Jwt)
    | InvalidCredentials
    | InvalidToken
    | SessionRevoked
    | SessionExpired
    | SystemError

  /** How one `createSession` goes: whether signing the refresh token works, and
      the outcomes of the three writes. */
  datatype Script = Script(signs: bool, byToken: Outcome, byUser: Outcome, insert: Outcome)

  datatype Verdict = Judged(check: Check) | LookupFailed

  /** What `RefreshToken` answers before it looks for the user. */
  function Refusal(v: Verdict): Reply
    requires v.LookupFailed? || !v.check.Found?
  {
    if v.LookupFailed? then SystemError
    else match v.check
         case Invalid => InvalidToken
         case RevokedError => SessionRevoked
         case ExpiredError => SessionExpired
  }

  class AuthManager {
    const sessions: SessionRepository
    const lifetime: int

    constructor (sessions: SessionRepository, lifetime: int)
      ensures this.sessions == sessions && this.lifetime == lifetime
    {
      this.sessions, this.lifetime := sessions, lifetime;
    }

    /** Sign a token at `signed`, stamp the row at `stored`, insert it. */
    method CreateSession(user: User, raw: Raw, signed: int, stored: int, c: Script) returns (r: Reply)
      requires sessions.Valid()
      modifies sessions`rows, sessions`log
      ensures sessions.Valid()
      ensures sessions.rows ==
              if c.signs
              then Inserted(old(sessions.rows), NewSession(user, raw, stored, lifetime), c.byToken, c.byUser, c.insert)
              else old(sessions.rows)
      ensures r == if c.signs && c.insert.Done? && Sha256(raw) !in old(sessions.rows)
                   then Issued(GenerateRefreshToken(raw, signed, lifetime)) else SystemError
      ensures r.Issued? ==>
                && r.token == Jwt(raw, signed - signed % 1_000_000_000,
                                  signed + lifetime - (signed + lifetime) % 1_000_000_000)
                && Sha256(raw) in sessions.rows
                && sessions.rows[Sha256(raw)] ==
                   Session(user, Sha256(raw), stored + lifetime - (stored + lifetime) % 1_000, false, false)
    {
      if !c.signs {
        return SystemError;
      }
      var ok := sessions.Insert(NewSession(user, raw, stored, lifetime), c.byToken, c.byUser, c.insert);
      r := if ok then Issued(GenerateRefreshToken(raw, signed, lifetime)) else SystemError;
    }

    /** `Login`, given what the user lookup, the password check and the signing of
        the access token said. Only a missing user and a wrong password count as
        invalid credentials. */
    method Login(user: Lookup<User>, password: Password, access: bool, raw: Raw, signed: int, stored: int, c: Script)
      returns (r: Reply)
      requires sessions.Valid() && Sha256(raw) !in sessions.rows
      modifies sessions`rows, sessions`log
      ensures sessions.Valid()
      ensures r.Issued? <==> user.Row? && password.Right? && access && c.signs && c.insert.Done?
      ensures r.InvalidCredentials? <==> user.NoRows? || (user.Row? && password.Wrong?)
      ensures r.Issued? || r.InvalidCredentials? || r.SystemError?
      ensures sessions.rows ==
              if user.Row? && password.Right? && access && c.signs
              then Inserted(old(sessions.rows), NewSession(user.row, raw, stored, lifetime),
                            c.byToken, c.byUser, c.insert)
              else old(sessions.rows)
      ensures r.Issued? ==>
                && r.token == Jwt(raw, signed - signed % 1_000_000_000,
                                  signed + lifetime - (signed + lifetime) % 1_000_000_000)
                && Sha256(raw) in sessions.rows
                && sessions.rows[Sha256(raw)] ==
                   Session(user.row, Sha256(raw), stored + lifetime - (stored + lifetime) % 1_000, false, false)
                && (c.byUser.Applied() ==> LiveOf(sessions.rows, user.row) == {Sha256(raw)})
      ensures forall h :: h in old(sessions.rows) && !(user.Row? && old(sessions.rows)[h].user == user.row) ==>
                h in sessions.rows && sessions.rows[h] == old(sessions.rows)[h]
    {
      if user.NoRows? {
        return InvalidCredentials;
      }
      if user.QueryFailed? || password.CheckFailed? {
        return SystemError;
      }
      if password.Wrong? {
        return InvalidCredentials;
      }
      if !access {
        return SystemError;
      }
      r := CreateSession(user.row, raw, signed, stored, c);
    }

    /** `validateSession`, the two errors it can add to a failed lookup included. */
    method ValidateSession(h: Hash, now: int, failing: bool) returns (v: Verdict)
      requires sessions.Valid()
      ensures v == if failing then LookupFailed else Judged(Sessions.ValidateSession(sessions.replica, h, now))
    {
      var found := sessions.FindByToken(h, failing);
      match found {
        case QueryFailed => return LookupFailed;
        case NoRows => return Judged(Invalid);
        case Row(row) =>
          if row.revoked {
            return Judged(RevokedError);
          }
          if row.expiresAt < now {
            return Judged(ExpiredError);
          }
          v := Judged(Found(row));
      }
    }

    /** `RefreshToken`. `validated`, `checked`, `signed` and `stored` are its clock
        readings, `raw` is the fresh random token, and `failing`, `user` and
        `access` say how the session lookup, the user lookup and the signing of the
        access token go. A refused refresh changes nothing. An issued one names a
        new row; the user's other rows are dead as soon as either revocation
        reached them; nobody else's row changes. */
    method RefreshToken(presented: Presented, validated: int, checked: int, failing: bool, user: bool, access: bool,
                        raw: Raw, signed: int, stored: int, c: Script, byPrior: Outcome)
      returns (r: Reply)
      requires sessions.Valid() && Sha256(raw) !in sessions.rows
      modifies sessions`rows, sessions`log
      ensures sessions.Valid()
      ensures !Acceptable(presented, validated) ==> r == InvalidToken
      ensures Acceptable(presented, validated) && failing ==> r == SystemError
      ensures Acceptable(presented, validated) && !failing ==>
                var replica, prior := sessions.replica, Sha256(presented.jwt.raw);
                if prior !in replica || replica[prior].deleted then r == InvalidToken
                else if replica[prior].revoked then r == SessionRevoked
                else if replica[prior].expiresAt < checked then r == SessionExpired
                else if user && access && c.signs && c.insert.Done? then r.Issued?
                else r == SystemError
      ensures (&& Acceptable(presented, validated) && !failing && user && access && c.signs && c.insert.Errored()
               && Sessions.ValidateSession(sessions.replica, Sha256(presented.jwt.raw), checked).Found?) ==>
                var u := sessions.replica[Sha256(presented.jwt.raw)].user;
                sessions.rows ==
                Inserted(old(sessions.rows), NewSession(u, raw, stored, lifetime), c.byToken, c.byUser, c.insert)
      ensures sessions.rows.Keys <= old(sessions.rows).Keys + {Sha256(raw)}
      ensures r.InvalidToken? || r.SessionRevoked? || r.SessionExpired? || failing || !user || !access || !c.signs ==>
                sessions.rows == old(sessions.rows)
      ensures r.Issued? ==>
                var u := sessions.replica[Sha256(presented.jwt.raw)].user;
                && r.token == Jwt(raw, signed - signed % 1_000_000_000,
                                  signed + lifetime - (signed + lifetime) % 1_000_000_000)
                && Sha256(raw) in sessions.rows
                && sessions.rows[Sha256(raw)] ==
                   Session(u, Sha256(raw), stored + lifetime - (stored + lifetime) % 1_000, false, false)
                && (c.byUser.Applied() ==> LiveOf(sessions.rows, u) == {Sha256(raw)})
                && (Live(sessions.rows, Sha256(presented.jwt.raw)) <==>
                    Live(old(sessions.rows), Sha256(presented.jwt.raw)) && c.byUser.Refused? && byPrior.Refused?)
                && (forall h :: h in old(sessions.rows) && old(sessions.rows)[h].user != u ==>
                      h in sessions.rows && sessions.rows[h] == old(sessions.rows)[h])
    {
      if !Acceptable(presented, validated) {
        return InvalidToken;
      }
      var prior := Sha256(presented.jwt.raw);
      var v := ValidateSession(prior, checked, failing);
      if v.LookupFailed? || !v.check.Found? {
        return Refusal(v);
      }
      RowsOnlyDie(sessions.log, sessions.shown, prior);
      if !user || !access {
        return SystemError;
      }
      r := CreateSession(v.check.row.user, raw, signed, stored, c);
      if r.SystemError? {
        return;
      }
      var err := sessions.RevokeByToken(prior, byPrior);
    }

    /** `Logout` revokes the row of a valid token and reports a store error. */
    method Logout(presented: Presented, now: int, o: Outcome) returns (ok: bool)
      requires sessions.Valid()
      modifies sessions`rows, sessions`log
      ensures sessions.Valid()
      ensures ok <==> Acceptable(presented, now) && o.Done?
      ensures !Acceptable(presented, now) || o.Refused? ==> sessions.rows == old(sessions.rows)
      ensures Acceptable(presented, now) && o.Applied() ==> !Live(sessions.rows, Sha256(presented.jwt.raw))
      ensures forall h :: h in old(sessions.rows) && !(presented.Refreshing? && h == Sha256(presented.jwt.raw)) ==>
                h in sessions.rows && sessions.rows[h] == old(sessions.rows)[h]
    {
      if !Acceptable(presented, now) {
        return false;
      }
      var err := sessions.RevokeByToken(Sha256(presented.jwt.raw), o);
      ok := !err;
    }
  }

  /** The clock readings of a refresh, its random token and its writes. */
  datatype Exchange = Exchange(validated: int, checked: int, raw: Raw, signed: int, stored: int, c: Script,
                               byPrior: Outcome)
  {
    /** In time for a token that was signed and stored at these times. */
    predicate InTime(signed': int, stored': int, lifetime: int) {
      && signed' - signed' % 1_000_000_000 <= validated
      && validated < signed' + lifetime - (signed' + lifetime) % 1_000_000_000
      && checked <= stored' + lifetime - (stored' + lifetime) % 1_000
    }
  }

  /** The round trip of rotation: what `Login` issues, a refresh accepts, and what
      that issues, the next refresh accepts, each exactly within its lifetime, once
      the replica shows the rows and if signing and inserting work. */
  method RotateTwice(auth: AuthManager, user: User, raw: Raw, signed: int, stored: int, c: Script,
                     first: Exchange, second: Exchange)
    returns (login: Reply, one: Reply, two: Reply)
    requires auth.sessions.Valid() && raw != first.raw && raw != second.raw && first.raw != second.raw
    requires Sha256(raw) !in auth.sessions.rows && Sha256(first.raw) !in auth.sessions.rows
    requires Sha256(second.raw) !in auth.sessions.rows
    modifies auth.sessions
    ensures login.Issued? <==> c.signs && c.insert.Done?
    ensures one.Issued? <==>
            && login.Issued? && first.InTime(signed, stored, auth.lifetime)
            && first.c.signs && first.c.insert.Done?
    ensures two.Issued? <==>
            && one.Issued? && second.InTime(first.signed, first.stored, auth.lifetime)
            && second.c.signs && second.c.insert.Done?
  {
    one, two := SystemError, SystemError;
    login := auth.Login(Row(user), Right, true, raw, signed, stored, c);
    if !login.Issued? {
      return;
    }
    assert forall h :: h in auth.sessions.rows ==> h in old(auth.sessions.rows) || h == Sha256(raw) by {
      NoOtherRows(old(auth.sessions.rows), NewSession(user, raw, stored, auth.lifetime), c);
    }
    auth.sessions.CatchUp();
    one := Renew(auth, login.token, first);
    if !one.Issued? {
      return;
    }
    auth.sessions.CatchUp();
    two := Renew(auth, one.token, second);
  }

  method Renew(auth: AuthManager, token: Jwt, x: Exchange) returns (r: Reply)
    requires auth.sessions.Valid() && auth.sessions.replica == auth.sessions.rows
    requires Sha256(x.raw) !in auth.sessions.rows
    requires Sha256(token.raw) in auth.sessions.rows
    requires var row := auth.sessions.rows[Sha256(token.raw)]; !row.revoked && !row.deleted
    modifies auth.sessions
    ensures auth.sessions.Valid()
    ensures r.Issued? <==>
            && token.nbf <= x.validated < token.exp
            && x.checked <= old(auth.sessions.rows)[Sha256(token.raw)].expiresAt && x.c.signs && x.c.insert.Done?
    ensures forall h :: h in auth.sessions.rows ==> h in old(auth.sessions.rows) || h == Sha256(x.raw)
    ensures r.Issued? ==>
              && r.token == Jwt(x.raw, x.signed - x.signed % 1_000_000_000,
                                x.signed + auth.lifetime - (x.signed + auth.lifetime) % 1_000_000_000)
              && Sha256(x.raw) in auth.sessions.rows
              && var row := auth.sessions.rows[Sha256(x.raw)];
                 && !row.revoked && !row.deleted
                 && row.expiresAt == x.stored + auth.lifetime - (x.stored + auth.lifetime) % 1_000
  {
    r := auth.RefreshToken(Refreshing(token), x.validated, x.checked, false, true, true, x.raw, x.signed, x.stored,
                           x.c, x.byPrior);
  }

  lemma NoOtherRows(t: Table, row: Session, c: Script)
    requires row.token !in t
    ensures forall h :: h in Inserted(t, row, c.byToken, c.byUser, c.insert) ==> h in t || h == row.token
  {
  }
}
