/** The sessions table as a log of row operations, refresh tokens and their
    expiry, and what a lookup on a replica that lags behind can see. */
module Sessions {
  import opened Basics

  type User = nat
  type Raw = nat

  /** SHA-256 of a refresh token, taken to be injective. */
  datatype Hash = Sha256(raw: Raw)

  const MICRO := 1_000

  /** Times and durations are in nanoseconds. */
  datatype Session = Session(user: User, token: Hash, expiresAt: int, revoked: bool, deleted: bool)

  /** `token` is UNIQUE over all rows, soft-deleted ones included. */
  type Table = map<Hash, Session>

  datatype Op = RevokeToken(token: Hash) | RevokeUser(user: User) | InsertRow(row: Session)

  /** `SET revoked = true, deleted_at = now() WHERE ... AND deleted_at IS NULL`. */
  function Revoked(row: Session): Session {
    if row.deleted then row else row.(revoked := true, deleted := true)
  }

  function ApplyOp(t: Table, op: Op): Table {
    match op
    case RevokeToken(h) => if h in t then t[h := Revoked(t[h])] else t
    case RevokeUser(u) => map h | h in t :: if t[h].user == u then Revoked(t[h]) else t[h]
    case InsertRow(row) => if row.token in t then t else t[row.token := row]
  }

  /** The table after the operations of `log`. */
  function Replay(log: seq<Op>): Table {
    if log == [] then map[] else ApplyOp(Replay(log[..|log| - 1]), log[|log| - 1])
  }

  predicate Live(t: Table, h: Hash) {
    h in t && !t[h].deleted
  }

  predicate Dead(t: Table, h: Hash) {
    h in t && t[h].deleted
  }

  function LiveOf(t: Table, u: User): set<Hash> {
    set h | h in t && t[h].user == u && !t[h].deleted
  }

  // ----- Refresh tokens -----

  /** The claims of a refresh token that matter here. The `exp` and `nbf` claims
      are whole seconds, section 4.1 of RFC 7519. */
  datatype Jwt = Jwt(raw: Raw, nbf: int, exp: int)

  function WholeSeconds(x: int): int {
    x - x % SECOND
  }

  function WholeMicros(x: int): int {
    x - x % MICRO
  }

  function GenerateRefreshToken(raw: Raw, now: int, lifetime: int): Jwt {
    Jwt(raw, WholeSeconds(now), WholeSeconds(now + lifetime))
  }

  /** The row `createSession` stores, stamped at `now`; the column keeps microseconds. */
  function NewSession(user: User, raw: Raw, now: int, lifetime: int): Session {
    Session(user, Sha256(raw), WholeMicros(now + lifetime), false, false)
  }

  predicate ValidToken(token: Jwt, now: int) {
    token.nbf <= now < token.exp
  }

  datatype Check = Found(row: Session) | Invalid | RevokedError | ExpiredError

  /** `validateSession` over the table the replica shows. */
  function ValidateSession(t: Table, h: Hash, now: int): Check {
    if !Live(t, h) then Invalid
    else if t[h].revoked then RevokedError
    else if t[h].expiresAt < now then ExpiredError
    else Found(t[h])
  }

  /** When an issued token is good: from the second it was signed in to the second
      its lifetime ends in, that one not included. */
  lemma IssuedTokenWindow(raw: Raw, signed: int, lifetime: int, now: int)
    ensures GenerateRefreshToken(raw, signed, lifetime).raw == raw
    ensures ValidToken(GenerateRefreshToken(raw, signed, lifetime), now) <==>
            signed - signed % 1_000_000_000 <= now < signed + lifetime - (signed + lifetime) % 1_000_000_000
  {
  }

  /** What a lookup of a session is told, case by case. */
  lemma SessionVerdict(t: Table, h: Hash, now: int)
    ensures ValidateSession(t, h, now).Found? <==>
            h in t && !t[h].deleted && !t[h].revoked && now <= t[h].expiresAt
    ensures ValidateSession(t, h, now).Found? ==> ValidateSession(t, h, now).row == t[h]
    ensures ValidateSession(t, h, now).Invalid? <==> h !in t || t[h].deleted
    ensures ValidateSession(t, h, now).RevokedError? <==> h in t && !t[h].deleted && t[h].revoked
  {
  }

  /** The updates: a live row that is hit becomes revoked and soft-deleted and is
      otherwise unchanged, no other row changes, and no row goes away. */
  lemma OperationsMean(t: Table, op: Op, h: Hash)
    ensures h in t ==> h in ApplyOp(t, op)
    ensures h in t && (op.InsertRow? || t[h].deleted) ==> ApplyOp(t, op)[h] == t[h]
    ensures h in t && !t[h].deleted && (op == RevokeToken(h) || op == RevokeUser(t[h].user)) ==>
              ApplyOp(t, op)[h] == Session(t[h].user, t[h].token, t[h].expiresAt, true, true)
    ensures h in t && op != RevokeToken(h) && op != RevokeUser(t[h].user) ==> ApplyOp(t, op)[h] == t[h]
    ensures h !in t ==> (h in ApplyOp(t, op) <==> op.InsertRow? && op.row.token == h)
    ensures h !in t && h in ApplyOp(t, op) ==> ApplyOp(t, op)[h] == op.row
  {
  }

  // ----- Facts about logs -----

  lemma ReplayAppend(log: seq<Op>, op: Op)
    ensures Replay(log + [op]) == ApplyOp(Replay(log), op)
  {
    assert (log + [op])[..|log|] == log;
  }

  /** Rows are never removed, keep their user and expiry, and stay dead. */
  lemma {:induction false} RowsOnlyDie(log: seq<Op>, k: nat, h: Hash)
    requires k <= |log| && h in Replay(log[..k])
    ensures h in Replay(log)
    ensures Replay(log)[h].user == Replay(log[..k])[h].user
    ensures Replay(log)[h].expiresAt == Replay(log[..k])[h].expiresAt
    ensures Replay(log[..k])[h].deleted ==> Replay(log)[h].deleted
    decreases |log| - k
  {
    if k == |log| {
      assert log[..k] == log;
    } else {
      assert log[..k + 1][..k] == log[..k];
      RowsOnlyDie(log, k + 1, h);
    }
  }

  /** A row of the table was inserted by some operation of the log and differs
      from what was inserted only by its revocation. */
  lemma {:induction false} RowWasInserted(log: seq<Op>, h: Hash) returns (i: nat)
    requires h in Replay(log)
    ensures i < |log| && log[i].InsertRow? && log[i].row.token == h
    ensures Replay(log)[h] == log[i].row || Replay(log)[h] == Revoked(log[i].row)
    decreases |log|
  {
    var n := |log| - 1;
    if h in Replay(log[..n]) {
      i := RowWasInserted(log[..n], h);
    } else {
      i := n;
    }
  }
}
