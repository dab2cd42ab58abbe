/**
 * Authorization grants, mobile sessions and their refresh-token families. Each
 * SQL statement is a function that says how many rows it changed; a violated
 * unique index fails the statement and with it the whole batch.
 */
module MobileAuthStore {
  import opened Wrappers

  /** SHA-256 of a credential, taken to be injective. */
  type Hash = nat

  const MOBILE_CLIENT: nat := 0
  const SESSION_TTL: Time := 30 * 24 * 60 * 60 * 1000
  const CODE_TTL: Time := 5 * 60 * 1000

  datatype Grant = Grant(
    codeHash: Hash, operator: nat, client: nat, redirect: nat, challenge: nat, expiresAt: Time,
    consumedAt: Option<Time>, consumedSession: Option<Guid>)

  datatype Session = Session(
    grant: Guid, operator: nat, client: nat, hash: Hash, expiresAt: Time, refreshedAt: Time, revokedAt: Option<Time>)

  datatype Token = Token(session: Guid, issuedAt: Time, rotatedAt: Option<Time>)

  datatype Audit =
    | GrantCreated(grant: Guid) | SessionCreated(session: Guid) | ReuseDetected(session: Guid)
    | TokenRotated(session: Guid) | SessionRevoked(session: Guid) | RevokedByOperator(session: Guid)

  datatype AuthDb = AuthDb(grants: map<Guid, Grant>, sessions: map<Guid, Session>, tokens: map<Hash, Token>,
                           audits: seq<Audit>)
  {
    predicate Live(session: Guid) { session in sessions && sessions[session].revokedAt.None? }

    predicate Issued(session: Guid, token: Hash) { token in tokens && tokens[token].session == session }

    predicate Current(session: Guid, token: Hash) { Issued(session, token) && tokens[token].rotatedAt.None? }

    function Log(a: Audit): AuthDb { this.(audits := audits + [a]) }

    function WithSession(id: Guid, s: Session): AuthDb { this.(sessions := sessions[id := s]) }
  }

  const EMPTY := AuthDb(map[], map[], map[], [])

  /** A statement or a batch either finishes or throws; a throwing batch leaves no trace. */
  datatype Outcome<+T> = Done(value: T) | Violation
  {
    predicate IsFailure() { Violation? }
    function PropagateFailure<U>(): Outcome<U> { Violation }
    function Extract(): T requires Done? { value }
  }

  /** New rows and the number of rows the statement changed. */
  type Changed = (AuthDb, nat)

  /** New rows and the changes of each statement of a batch. */
  type Batch = (AuthDb, seq<nat>)

  // ---- Authorization code exchange ----------------------------------------

  /** The new grant is unconsumed and lives for five minutes, whatever g says. */
  function CreateGrant(db: AuthDb, id: Guid, g: Grant, now: Time): Outcome<AuthDb> {
    if id in db.grants || exists other | other in db.grants :: db.grants[other].codeHash == g.codeHash then Violation
    else
      var grant := g.(expiresAt := now + CODE_TTL, consumedAt := None, consumedSession := None);
      Done(db.(grants := db.grants[id := grant]).Log(GrantCreated(id)))
  }

  datatype Exchange = Exchange(
    grant: Guid, codeHash: Hash, operator: nat, client: nat, session: Guid, token: Hash, now: Time)

  function ConsumeGrant(db: AuthDb, x: Exchange): Changed {
    if && x.grant in db.grants && db.grants[x.grant].codeHash == x.codeHash
       && db.grants[x.grant].consumedAt.None? && db.grants[x.grant].expiresAt > x.now
    then
      var g := db.grants[x.grant].(consumedAt := Some(x.now), consumedSession := Some(x.session));
      (db.(grants := db.grants[x.grant := g]), 1)
    else (db, 0)
  }

  function InsertSession(db: AuthDb, x: Exchange): Outcome<Changed> {
    if && x.grant in db.grants && db.grants[x.grant].codeHash == x.codeHash
       && db.grants[x.grant].consumedAt == Some(x.now) && db.grants[x.grant].consumedSession == Some(x.session)
    then
      if || x.session in db.sessions
         || exists s | s in db.sessions :: db.sessions[s].grant == x.grant || db.sessions[s].hash == x.token
      then Violation
      else
        var row := Session(x.grant, x.operator, x.client, x.token, x.now + SESSION_TTL, x.now, None);
        Done((db.WithSession(x.session, row), 1))
    else Done((db, 0))
  }

  /** The primary key and the one-current-token index. */
  function InsertToken(db: AuthDb, session: Guid, token: Hash, now: Time): Outcome<Changed> {
    if token in db.tokens || exists t | t in db.tokens :: db.Current(session, t) then Violation
    else Done((db.(tokens := db.tokens[token := Token(session, now, None)]), 1))
  }

  function InsertFirstToken(db: AuthDb, x: Exchange): Outcome<Changed> {
    if x.session in db.sessions && db.sessions[x.session].hash == x.token
    then InsertToken(db, x.session, x.token, x.now) else Done((db, 0))
  }

  function AuditCreation(db: AuthDb, x: Exchange): Changed {
    if x.session in db.sessions && db.sessions[x.session].grant == x.grant
    then (db.Log(SessionCreated(x.session)), 1) else (db, 0)
  }

  function ExchangeBatch(db: AuthDb, x: Exchange): Outcome<Batch> {
    var (d1, c1) := ConsumeGrant(db, x);
    var r2 :- InsertSession(d1, x);
    var r3 :- InsertFirstToken(r2.0, x);
    var (d4, c4) := AuditCreation(r3.0, x);
    Done((d4, [c1, r2.1, r3.1, c4]))
  }

  // ---- Refresh: rotation or reuse revocation ------------------------------

  datatype Rotation = Rotation(session: Guid, presented: Hash, next: Hash, now: Time)

  /** The token was issued to this live session and is no longer its current one. */
  predicate Reused(db: AuthDb, r: Rotation) {
    && db.Live(r.session) && db.Issued(r.session, r.presented)
    && (db.sessions[r.session].hash != r.presented || db.tokens[r.presented].rotatedAt.Some?)
  }

  function AuditReuse(db: AuthDb, r: Rotation): Changed {
    if Reused(db, r) then (db.Log(ReuseDetected(r.session)), 1) else (db, 0)
  }

  function RevokeReused(db: AuthDb, r: Rotation): Changed {
    if Reused(db, r) then (db.WithSession(r.session, db.sessions[r.session].(revokedAt := Some(r.now))), 1) else (db, 0)
  }

  predicate Rotatable(db: AuthDb, r: Rotation) {
    && db.Live(r.session) && db.sessions[r.session].hash == r.presented
    && db.sessions[r.session].expiresAt > r.now && db.Current(r.session, r.presented)
  }

  function AdvanceSession(db: AuthDb, r: Rotation): Outcome<Changed> {
    if Rotatable(db, r) then
      if exists s | s in db.sessions && s != r.session :: db.sessions[s].hash == r.next then Violation
      else Done((db.WithSession(r.session, db.sessions[r.session].(hash := r.next, refreshedAt := r.now)), 1))
    else Done((db, 0))
  }

  /** The session already carries the next hash. */
  predicate Advanced(db: AuthDb, r: Rotation) { db.Live(r.session) && db.sessions[r.session].hash == r.next }

  function RetireToken(db: AuthDb, r: Rotation): Changed {
    if db.Current(r.session, r.presented) && Advanced(db, r)
    then (db.(tokens := db.tokens[r.presented := db.tokens[r.presented].(rotatedAt := Some(r.now))]), 1) else (db, 0)
  }

  function InsertNextToken(db: AuthDb, r: Rotation): Outcome<Changed> {
    if Advanced(db, r) then InsertToken(db, r.session, r.next, r.now) else Done((db, 0))
  }

  function AuditRotation(db: AuthDb, r: Rotation): Changed {
    if Advanced(db, r) then (db.Log(TokenRotated(r.session)), 1) else (db, 0)
  }

  function RotateBatch(db: AuthDb, r: Rotation): Outcome<Batch> {
    var (d1, c1) := AuditReuse(db, r);
    var (d2, c2) := RevokeReused(d1, r);
    var r3 :- AdvanceSession(d2, r);
    var (d4, c4) := RetireToken(r3.0, r);
    var r5 :- InsertNextToken(d4, r);
    var (d6, c6) := AuditRotation(r5.0, r);
    Done((d6, [c1, c2, r3.1, c4, r5.1, c6]))
  }

  const REVOKED := [1, 1, 0, 0, 0, 0]
  const ROTATED := [0, 0, 1, 1, 1, 1]
  const UNTOUCHED := [0, 0, 0, 0, 0, 0]

  // ---- Revocation ----------------------------------------------------------

  /** Logout: both statements carry the same guard. */
  function RevokeKnown(db: AuthDb, session: Guid, token: Hash, now: Time): Batch {
    if db.Live(session) && db.Issued(session, token) then
      var d1 := db.Log(SessionRevoked(session));
      (d1.WithSession(session, db.sessions[session].(revokedAt := Some(now))), [1, 1])
    else (db, [0, 0])
  }

  /** The audit statement only looks for the timestamp this call writes. */
  function RevokeByOperator(db: AuthDb, session: Guid, operator: nat, now: Time): Batch {
    var mine := session in db.sessions && db.sessions[session].operator == operator;
    var d1 :=
      if mine && db.Live(session) then db.WithSession(session, db.sessions[session].(revokedAt := Some(now))) else db;
    var audit := mine && d1.sessions[session].revokedAt == Some(now);
    (if audit then d1.Log(RevokedByOperator(session)) else d1,
     [if mine && db.Live(session) then 1 else 0, if audit then 1 else 0])
  }

  // ---- What the rows always satisfy ---------------------------------------

  /** A session's hash is its one current token, and a grant belongs to at most one session. */
  ghost predicate Valid(db: AuthDb) {
    && (forall s | s in db.sessions :: db.Current(s, db.sessions[s].hash))
    && (forall t | t in db.tokens ::
          && db.tokens[t].session in db.sessions
          && (db.tokens[t].rotatedAt.None? ==> db.sessions[db.tokens[t].session].hash == t))
    && (forall s | s in db.sessions ::
          && db.sessions[s].grant in db.grants && db.grants[db.sessions[s].grant].consumedAt.Some?
          && db.grants[db.sessions[s].grant].consumedSession == Some(s))
    && (forall g | g in db.grants && db.grants[g].consumedSession.Some? ::
          && db.grants[g].consumedSession.value in db.sessions
          && db.sessions[db.grants[g].consumedSession.value].grant == g)
    && (forall g, h | g in db.grants && h in db.grants && db.grants[g].codeHash == db.grants[h].codeHash :: g == h)
  }

  /** The rows after a rotation. */
  function AfterRotation(db: AuthDb, r: Rotation): AuthDb
    requires Rotatable(db, r)
  {
    db.(sessions := db.sessions[r.session := db.sessions[r.session].(hash := r.next, refreshedAt := r.now)],
        tokens := db.tokens[r.presented := db.tokens[r.presented].(rotatedAt := Some(r.now))]
                           [r.next := Token(r.session, r.now, None)])
      .Log(TokenRotated(r.session))
  }

  /** The rows after a reuse was detected. */
  function AfterReuse(db: AuthDb, r: Rotation): AuthDb
    requires Reused(db, r)
  {
    db.Log(ReuseDetected(r.session)).WithSession(r.session, db.sessions[r.session].(revokedAt := Some(r.now)))
  }

  /** What a batch that does not throw makes of these rows. */
  function Expected(db: AuthDb, r: Rotation): Batch {
    if Reused(db, r) then (AfterReuse(db, r), REVOKED)
    else if Rotatable(db, r) then (AfterRotation(db, r), ROTATED)
    else (db, UNTOUCHED)
  }

  /**
   * The six-statement batch is exactly a rotation, exactly a revocation, or
   * nothing, and which one it is depends only on the rows it started from. It
   * throws only when the new token collides with one that already exists.
   */
  lemma RotateBatchIsOneOfThree(db: AuthDb, r: Rotation)
    requires Valid(db)
    ensures
      var b := RotateBatch(db, r);
      && (b.Violation? ==> r.next in db.tokens)
      && (b.Done? ==> b.value == Expected(db, r))
      && (b.Done? && Rotatable(db, r) ==> r.next !in db.tokens)
  {
    if db.Live(r.session) { assert db.Current(r.session, db.sessions[r.session].hash); }
    if Reused(db, r) {
      var d2 := RevokeReused(AuditReuse(db, r).0, r).0;
      assert !d2.Live(r.session);
    } else if Rotatable(db, r) && r.next !in db.tokens {
      NoCollision(db, r);
    }
  }

  /** A token nobody has seen passes every unique index. */
  lemma NoCollision(db: AuthDb, r: Rotation)
    requires Valid(db) && Rotatable(db, r) && r.next !in db.tokens
    ensures RotateBatch(db, r) == Done((AfterRotation(db, r), ROTATED))
  {}

  lemma RotationKeepsValid(db: AuthDb, r: Rotation)
    requires Valid(db) && Rotatable(db, r) && r.next !in db.tokens
    ensures Valid(AfterRotation(db, r))
  {
    var d := AfterRotation(db, r);
    forall s | s in d.sessions ensures d.Current(s, d.sessions[s].hash) {
      assert db.Current(s, db.sessions[s].hash);
    }
  }

  predicate Exchangeable(db: AuthDb, x: Exchange) {
    && x.grant in db.grants && db.grants[x.grant].codeHash == x.codeHash
    && db.grants[x.grant].consumedAt.None? && db.grants[x.grant].expiresAt > x.now
  }

  /** The rows after a code was exchanged. */
  function AfterExchange(db: AuthDb, x: Exchange): AuthDb
    requires Exchangeable(db, x)
  {
    AuthDb(
      db.grants[x.grant := db.grants[x.grant].(consumedAt := Some(x.now), consumedSession := Some(x.session))],
      db.sessions[x.session := Session(x.grant, x.operator, x.client, x.token, x.now + SESSION_TTL, x.now, None)],
      db.tokens[x.token := Token(x.session, x.now, None)],
      db.audits + [SessionCreated(x.session)])
  }

  /** The exchange batch consumes the code and creates the session and its first token, or does nothing. */
  lemma ExchangeBatchIsAllOrNothing(db: AuthDb, x: Exchange)
    requires Valid(db)
    ensures
      var b := ExchangeBatch(db, x);
      && (b.Violation? ==> x.session in db.sessions || x.token in db.tokens)
      && (b.Done? && Exchangeable(db, x) ==>
            b.value == (AfterExchange(db, x), [1, 1, 1, 1]) && x.session !in db.sessions && x.token !in db.tokens)
      && (b.Done? && !Exchangeable(db, x) ==>
            && b.value.1[..3] == [0, 0, 0] && b.value.0.(audits := db.audits) == db
            && (x.session !in db.sessions ==> b.value == (db, [0, 0, 0, 0])))
  {
    if Exchangeable(db, x) {
      forall s | s in db.sessions ensures db.sessions[s].grant != x.grant {}
    }
  }

  lemma ExchangeKeepsValid(db: AuthDb, x: Exchange)
    requires Valid(db) && Exchangeable(db, x) && x.session !in db.sessions && x.token !in db.tokens
    ensures Valid(AfterExchange(db, x))
  {
    var d := AfterExchange(db, x);
    forall s | s in d.sessions ensures d.Current(s, d.sessions[s].hash) {
      if s != x.session { assert db.Current(s, db.sessions[s].hash) && db.sessions[s].grant != x.grant; }
    }
  }

  lemma CreateGrantKeepsValid(db: AuthDb, id: Guid, g: Grant, now: Time)
    requires Valid(db) && CreateGrant(db, id, g, now).Done?
    ensures Valid(CreateGrant(db, id, g, now).value)
  {}

  /** An operator is told a session was revoked exactly when this call revoked it. */
  lemma OperatorRevocationIsAnsweredExactly(db: AuthDb, session: Guid, operator: nat, now: Time)
    ensures
      var (d, changes) := RevokeByOperator(db, session, operator, now);
      && (changes == [1, 1] <==> db.Live(session) && db.sessions[session].operator == operator)
      && (changes == [1, 1] ==> d.sessions == db.sessions[session := db.sessions[session].(revokedAt := Some(now))])
      && (changes != [1, 1] ==> d.sessions == db.sessions)
  {}

  lemma RevocationKeepsValid(db: AuthDb, session: Guid, at: Time, audits: seq<Audit>)
    requires Valid(db) && session in db.sessions
    ensures Valid(db.WithSession(session, db.sessions[session].(revokedAt := Some(at))).(audits := audits))
  {
    var d := db.WithSession(session, db.sessions[session].(revokedAt := Some(at))).(audits := audits);
    forall s | s in d.sessions ensures d.Current(s, d.sessions[s].hash) { assert db.Current(s, db.sessions[s].hash); }
  }

  // ---- The store -----------------------------------------------------------

  /** The four tables; each method is one batch and restores the rows when a statement throws. */
  class Store {
    var grants: map<Guid, Grant>
    var sessions: map<Guid, Session>
    var tokens: map<Hash, Token>
    var audits: seq<Audit>

    function Value(): AuthDb
      reads this
    {
      AuthDb(grants, sessions, tokens, audits)
    }

    constructor ()
      ensures Value() == EMPTY
    {
      grants, sessions, tokens, audits := map[], map[], map[], [];
    }

    method RollBack(to: AuthDb)
      modifies this
      ensures Value() == to
    {
      grants, sessions, tokens, audits := to.grants, to.sessions, to.tokens, to.audits;
    }

    method Audited(a: Audit) returns (changes: nat)
      modifies `audits
      ensures Value() == old(Value()).Log(a) && changes == 1
    {
      audits := audits + [a];
      changes := 1;
    }

    method InsertTokenRow(session: Guid, token: Hash, now: Time) returns (changes: Outcome<nat>)
      modifies `tokens
      ensures var r := InsertToken(old(Value()), session, token, now);
        if r.Violation? then changes.Violation? && Value() == old(Value())
        else changes == Done(r.value.1) && Value() == r.value.0
    {
      if token in tokens || exists t | t in tokens :: tokens[t].session == session && tokens[t].rotatedAt.None? {
        ghost var db := Value();
        assert token in db.tokens || exists t | t in db.tokens :: db.Current(session, t);
        return Violation;
      }
      tokens := tokens[token := Token(session, now, None)];
      changes := Done(1);
    }

    method ConsumeGrantRow(x: Exchange) returns (changes: nat)
      modifies `grants
      ensures (Value(), changes) == ConsumeGrant(old(Value()), x)
    {
      changes := 0;
      if && x.grant in grants && grants[x.grant].codeHash == x.codeHash
         && grants[x.grant].consumedAt.None? && grants[x.grant].expiresAt > x.now {
        grants := grants[x.grant := grants[x.grant].(consumedAt := Some(x.now), consumedSession := Some(x.session))];
        changes := 1;
      }
    }

    method InsertSessionRow(x: Exchange) returns (changes: Outcome<nat>)
      modifies `sessions
      ensures var r := InsertSession(old(Value()), x);
        if r.Violation? then changes.Violation? && Value() == old(Value())
        else changes == Done(r.value.1) && Value() == r.value.0
    {
      changes := Done(0);
      if && x.grant in grants && grants[x.grant].codeHash == x.codeHash
         && grants[x.grant].consumedAt == Some(x.now) && grants[x.grant].consumedSession == Some(x.session) {
        if || x.session in sessions
           || exists s | s in sessions :: sessions[s].grant == x.grant || sessions[s].hash == x.token {
          return Violation;
        }
        var row := Session(x.grant, x.operator, x.client, x.token, x.now + SESSION_TTL, x.now, None);
        sessions := sessions[x.session := row];
        changes := Done(1);
      }
    }

    /** Consumes an authorization code and creates its session. */
    method ExchangeAuthorizationCode(x: Exchange) returns (changes: Outcome<seq<nat>>)
      modifies this
      ensures var r := ExchangeBatch(old(Value()), x);
        if r.Violation? then changes.Violation? && Value() == old(Value())
        else changes == Done(r.value.1) && Value() == r.value.0
    {
      var before := Value();
      var consumed := ConsumeGrantRow(x);
      var inserted := InsertSessionRow(x);
      if inserted.Violation? {
        RollBack(before);
        return Violation;
      }
      var first := Done(0);
      if x.session in sessions && sessions[x.session].hash == x.token {
        first := InsertTokenRow(x.session, x.token, x.now);
        if first.Violation? {
          RollBack(before);
          return Violation;
        }
      }
      var audited := 0;
      if x.session in sessions && sessions[x.session].grant == x.grant {
        audited := Audited(SessionCreated(x.session));
      }
      changes := Done([consumed, inserted.value, first.value, audited]);
    }

    /** Rotates the presented token, or revokes the session when it was used before. */
    method RotateRefreshToken(r: Rotation) returns (changes: Outcome<seq<nat>>)
      modifies this
      ensures var b := RotateBatch(old(Value()), r);
        if b.Violation? then changes.Violation? && Value() == old(Value())
        else changes == Done(b.value.1) && Value() == b.value.0
    {
      var before := Value();
      var reuse, revoked, advanced, retired, inserted, audited := 0, 0, 0, 0, 0, 0;
      if Reused(Value(), r) {
        reuse := Audited(ReuseDetected(r.session));
      }
      if Reused(Value(), r) {
        sessions := sessions[r.session := sessions[r.session].(revokedAt := Some(r.now))];
        revoked := 1;
      }
      if Rotatable(Value(), r) {
        if exists s | s in sessions && s != r.session :: sessions[s].hash == r.next {
          RollBack(before);
          return Violation;
        }
        sessions := sessions[r.session := sessions[r.session].(hash := r.next, refreshedAt := r.now)];
        advanced := 1;
      }
      if Value().Current(r.session, r.presented) && Advanced(Value(), r) {
        tokens := tokens[r.presented := tokens[r.presented].(rotatedAt := Some(r.now))];
        retired := 1;
      }
      if Advanced(Value(), r) {
        var next := InsertTokenRow(r.session, r.next, r.now);
        if next.Violation? {
          RollBack(before);
          return Violation;
        }
        inserted := next.value;
      }
      if Advanced(Value(), r) {
        audited := Audited(TokenRotated(r.session));
      }
      changes := Done([reuse, revoked, advanced, retired, inserted, audited]);
    }

    method RevokeKnownSession(session: Guid, token: Hash, now: Time) returns (changes: seq<nat>)
      modifies this
      ensures (Value(), changes) == RevokeKnown(old(Value()), session, token, now)
      ensures changes == [1, 1] <==> old(Value()).Live(session) && old(Value()).Issued(session, token)
      ensures changes != [1, 1] ==> changes == [0, 0] && Value() == old(Value())
      ensures changes == [1, 1] ==>
        !Value().Live(session) && tokens == old(tokens) && sessions - {session} == old(sessions) - {session}
      ensures changes == [1, 1] ==> forall r: Rotation | r.session == session ::
        RotateBatch(Value(), r) == Done((Value(), UNTOUCHED))
      ensures old(Valid(Value())) ==> Valid(Value())
    {
      if Valid(Value()) && Value().Live(session) {
        RevocationKeepsValid(Value(), session, now, audits + [SessionRevoked(session)]);
      }
      changes := [0, 0];
      if session in sessions && sessions[session].revokedAt.None? && token in tokens
         && tokens[token].session == session {
        var audited := Audited(SessionRevoked(session));
        sessions := sessions[session := sessions[session].(revokedAt := Some(now))];
        changes := [audited, 1];
      }
    }

    method RevokeSessionByOperator(session: Guid, operator: nat, now: Time) returns (revoked: bool)
      modifies this
      ensures var (d, changes) := RevokeByOperator(old(Value()), session, operator, now);
        Value() == d && (revoked <==> changes == [1, 1])
      ensures revoked <==> old(Value()).Live(session) && old(sessions)[session].operator == operator
    {
      OperatorRevocationIsAnsweredExactly(Value(), session, operator, now);
      var updated, audited := 0, 0;
      if session in sessions && sessions[session].operator == operator && sessions[session].revokedAt.None? {
        sessions := sessions[session := sessions[session].(revokedAt := Some(now))];
        updated := 1;
      }
      if session in sessions && sessions[session].operator == operator && sessions[session].revokedAt == Some(now) {
        audited := Audited(RevokedByOperator(session));
      }
      revoked := updated == 1 && audited == 1;
    }
  }
}
