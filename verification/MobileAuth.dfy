/**
 * Code exchange, refresh, logout and operator revocation as concurrent calls.
 * A call reads rows, decides, and then runs one batch; anything may happen in
 * between, and a batch may take effect although its caller sees an exception.
 */
module MobileAuth {
  import opened Wrappers
  import opened MobileAuthStore

  type Pid = nat

  datatype Call =
    | Redeem(code: Hash, challenge: nat, client: nat, redirect: nat, allowed: set<nat>, now: Time)
    | Refresh(session: Guid, presented: Hash, client: nat, allowed: set<nat>, now: Time)
    | Logout(session: Guid, presented: Hash, now: Time)

  datatype Issued = Issued(session: Guid, operator: nat, token: Hash, expiresAt: Time)

  datatype Pc =
    | ReadingGrant
    | CommittingExchange(grant: Guid, row: Grant)
    | ReadingSession
    | ReadingToken(session: Session)
    | CommittingRotation(session: Session)
    | CommittingRevocation
    | Answered(answer: Option<Issued>)

  datatype Proc = Proc(call: Call, pc: Pc)
  {
    function Go(next: Pc): Proc { this.(pc := next) }
  }

  /** One rotation that took effect. */
  datatype Redemption = Redemption(pid: Pid, session: Guid, presented: Hash, next: Hash)

  datatype System = System(db: AuthDb, procs: map<Pid, Proc>, redeemed: seq<Redemption>, creators: map<Guid, Pid>)

  const START := System(EMPTY, map[], [], map[])

  datatype Event =
    | Authorize(id: Guid, grant: Grant, now: Time)
    | Begin(pid: Pid, call: Call)
    | Turn(pid: Pid, fate: Fate, session: Guid, token: Hash)   // freshly drawn identifiers, if the step needs them
    | Crash(pid: Pid)
    | OperatorRevokes(session: Guid, operator: nat, now: Time)

  ghost function FindGrant(db: AuthDb, code: Hash): (g: Option<Guid>)
    ensures g.Some? ==> g.value in db.grants && db.grants[g.value].codeHash == code
  {
    if id :| id in db.grants && db.grants[id].codeHash == code then Some(id) else None
  }

  predicate MayExchange(g: Grant, c: Call)
    requires c.Redeem?
  {
    && g.consumedAt.None? && g.expiresAt > c.now && c.client == MOBILE_CLIENT && g.client == c.client
    && g.redirect == c.redirect && g.challenge == c.challenge && g.operator in c.allowed
  }

  predicate MayRefresh(s: Session, c: Call)
    requires c.Refresh?
  {
    && s.revokedAt.None? && s.expiresAt > c.now && c.client == MOBILE_CLIENT && s.client == c.client
    && s.operator in c.allowed
  }

  /** The bearer of an access token for this session is let in. */
  function ActiveSession(db: AuthDb, session: Guid, subject: nat, allowed: set<nat>, now: Time): Option<nat> {
    if && session in db.sessions && db.sessions[session].revokedAt.None? && db.sessions[session].expiresAt > now
       && db.sessions[session].operator == subject && db.sessions[session].client == MOBILE_CLIENT && subject in allowed
    then Some(subject) else None
  }

  function Put(s: System, pid: Pid, p: Proc): System { s.(procs := s.procs[pid := p]) }

  ghost function AwaitExchange(s: System, pid: Pid, e: Event): System
    requires pid in s.procs && e.Turn? && s.procs[pid].call.Redeem?
  {
    var p := s.procs[pid];
    var c := p.call;
    if p.pc.ReadingGrant? then
      var g := FindGrant(s.db, c.code);
      Put(s, pid, p.Go(if e.fate.Acked? && g.Some? && MayExchange(s.db.grants[g.value], c)
        then CommittingExchange(g.value, s.db.grants[g.value]) else Answered(None)))
    else if p.pc.CommittingExchange? then
      var x := Exchange(p.pc.grant, c.code, p.pc.row.operator, p.pc.row.client, e.session, e.token, c.now);
      var b := ExchangeBatch(s.db, x);
      var whole := b.Done? && b.value.1 == [1, 1, 1, 1];
      var s' := if b.Done? && e.fate.Effective()
        then s.(db := b.value.0, creators := if whole then s.creators[e.session := pid] else s.creators) else s;
      Put(s', pid, p.Go(Answered(if e.fate.Acked? && whole
        then Some(Issued(e.session, p.pc.row.operator, e.token, c.now + SESSION_TTL)) else None)))
    else s
  }

  function AwaitRefresh(s: System, pid: Pid, e: Event): System
    requires pid in s.procs && e.Turn? && s.procs[pid].call.Refresh?
  {
    var p := s.procs[pid];
    var c := p.call;
    if p.pc.ReadingSession? then
      Put(s, pid, p.Go(if e.fate.Acked? && c.session in s.db.sessions then ReadingToken(s.db.sessions[c.session])
                       else Answered(None)))
    else if p.pc.ReadingToken? then
      Put(s, pid, p.Go(if e.fate.Acked? && s.db.Issued(c.session, c.presented) && MayRefresh(p.pc.session, c)
        then CommittingRotation(p.pc.session) else Answered(None)))
    else if p.pc.CommittingRotation? then
      var b := RotateBatch(s.db, Rotation(c.session, c.presented, e.token, c.now));
      var rotated := b.Done? && b.value.1 == ROTATED;
      var spent := Redemption(pid, c.session, c.presented, e.token);
      var s' := if b.Done? && e.fate.Effective()
        then s.(db := b.value.0, redeemed := if rotated then s.redeemed + [spent] else s.redeemed) else s;
      Put(s', pid, p.Go(Answered(if e.fate.Acked? && rotated
        then Some(Issued(c.session, p.pc.session.operator, e.token, p.pc.session.expiresAt)) else None)))
    else s
  }

  function AwaitLogout(s: System, pid: Pid, e: Event): System
    requires pid in s.procs && e.Turn? && s.procs[pid].call.Logout?
  {
    var p := s.procs[pid];
    var c := p.call;
    if p.pc.ReadingSession? then
      Put(s, pid, p.Go(if e.fate.Acked? && s.db.Live(c.session) then CommittingRevocation else Answered(None)))
    else if p.pc.CommittingRevocation? then
      Put(if e.fate.Effective() then s.(db := RevokeKnown(s.db, c.session, c.presented, c.now).0) else s, pid,
          p.Go(Answered(None)))
    else s
  }

  ghost function Step(s: System, e: Event): System {
    match e
    case Authorize(id, g, now) => var r := CreateGrant(s.db, id, g, now); if r.Done? then s.(db := r.value) else s
    case Begin(pid, c) =>
      if pid in s.procs then s else Put(s, pid, Proc(c, if c.Redeem? then ReadingGrant else ReadingSession))
    case Turn(pid, _, _, _) =>
      if pid !in s.procs then s
      else if s.procs[pid].call.Redeem? then AwaitExchange(s, pid, e)
      else if s.procs[pid].call.Refresh? then AwaitRefresh(s, pid, e)
      else AwaitLogout(s, pid, e)
    case Crash(pid) =>
      if pid in s.procs && !s.procs[pid].pc.Answered? then Put(s, pid, s.procs[pid].Go(Answered(None))) else s
    case OperatorRevokes(session, operator, now) => s.(db := RevokeByOperator(s.db, session, operator, now).0)
  }

  ghost function Run(s: System, es: seq<Event>): System
    decreases es
  {
    if es == [] then s else Run(Step(s, es[0]), es[1..])
  }

  // ---- The invariant -------------------------------------------------------

  ghost predicate Logged(s: System, pid: Pid, presented: Hash) {
    exists k :: 0 <= k < |s.redeemed| && s.redeemed[k].pid == pid && s.redeemed[k].presented == presented
  }

  ghost predicate InLog(log: seq<Redemption>, presented: Hash) {
    exists k :: 0 <= k < |log| && log[k].presented == presented
  }

  ghost predicate ProcOk(s: System, pid: Pid, p: Proc) {
    && (p.pc.CommittingRotation? && p.call.Refresh? ==> s.db.Issued(p.call.session, p.call.presented))
    && (p.pc.Answered? && p.pc.answer.Some? && p.call.Refresh? ==> Logged(s, pid, p.call.presented))
    && (p.pc.Answered? && p.pc.answer.Some? && p.call.Redeem? ==>
          Created(s, pid, p.call.code, p.pc.answer.value.session))
  }

  ghost predicate Created(s: System, pid: Pid, code: Hash, session: Guid) {
    && session in s.db.sessions && session in s.creators && s.creators[session] == pid
    && s.db.sessions[session].grant in s.db.grants && s.db.grants[s.db.sessions[session].grant].codeHash == code
  }

  /** Retired tokens and logged redemptions are the same thing. */
  ghost predicate LogOk(s: System) {
    && (forall k | 0 <= k < |s.redeemed| ::
          s.redeemed[k].presented in s.db.tokens && s.db.tokens[s.redeemed[k].presented].rotatedAt.Some?
            && s.redeemed[k].pid in s.procs)
    && (forall t | t in s.db.tokens && s.db.tokens[t].rotatedAt.Some? :: InLog(s.redeemed, t))
    && (forall j, k | 0 <= j < k < |s.redeemed| :: s.redeemed[j].presented != s.redeemed[k].presented)
  }

  ghost predicate Inv(s: System) {
    Valid(s.db) && LogOk(s) && forall pid | pid in s.procs :: ProcOk(s, pid, s.procs[pid])
  }

  /** How the shared part may change in one step. */
  ghost predicate Extends(a: System, b: System) {
    && (forall t | t in a.db.tokens :: t in b.db.tokens && b.db.tokens[t].session == a.db.tokens[t].session)
    && (forall s | s in a.db.sessions :: s in b.db.sessions && b.db.sessions[s].grant == a.db.sessions[s].grant)
    && (forall g | g in a.db.grants :: g in b.db.grants && b.db.grants[g].codeHash == a.db.grants[g].codeHash)
    && a.redeemed <= b.redeemed
    && (forall s | s in a.creators && s in a.db.sessions :: s in b.creators && b.creators[s] == a.creators[s])
  }

  /** Only the process moves. */
  lemma ProcessMoves(s: System, pid: Pid, p: Proc)
    requires Inv(s) && ProcOk(s, pid, p)
    ensures Inv(Put(s, pid, p)) && Extends(s, Put(s, pid, p))
  {}

  /** Only the rows and the logs move. */
  lemma RowsMove(a: System, b: System)
    requires Inv(a) && Extends(a, b) && b.procs == a.procs && Valid(b.db) && LogOk(b)
    ensures Inv(b)
  {}

  lemma Chain(a: System, b: System, c: System)
    requires Extends(a, b) && Extends(b, c)
    ensures Extends(a, c)
  {}

  /** The rows after a code was exchanged by this process. */
  function Admitted(s: System, pid: Pid, x: Exchange): System
    requires Exchangeable(s.db, x)
  {
    s.(db := AfterExchange(s.db, x), creators := s.creators[x.session := pid])
  }

  /** New unrotated tokens do not touch the log. */
  lemma LogUnaffected(a: System, b: System)
    requires LogOk(a) && b.redeemed == a.redeemed && b.procs == a.procs
    requires forall t | t in a.db.tokens :: t in b.db.tokens && b.db.tokens[t] == a.db.tokens[t]
    requires forall t | t in b.db.tokens && t !in a.db.tokens :: b.db.tokens[t].rotatedAt.None?
    ensures LogOk(b)
  {}

  lemma AdmissionExtends(s: System, pid: Pid, x: Exchange)
    requires Inv(s) && Exchangeable(s.db, x) && x.session !in s.db.sessions && x.token !in s.db.tokens
    ensures Extends(s, Admitted(s, pid, x)) && Created(Admitted(s, pid, x), pid, x.codeHash, x.session)
  {}

  lemma AdmissionKeepsLog(s: System, pid: Pid, x: Exchange)
    requires LogOk(s) && Exchangeable(s.db, x) && x.token !in s.db.tokens
    ensures LogOk(Admitted(s, pid, x))
  {
    LogUnaffected(s, Admitted(s, pid, x));
  }

  lemma AdmissionKeepsInv(s: System, pid: Pid, x: Exchange)
    requires Inv(s) && Exchangeable(s.db, x) && x.session !in s.db.sessions && x.token !in s.db.tokens
    ensures Inv(Admitted(s, pid, x))
  {
    ExchangeKeepsValid(s.db, x);
    AdmissionKeepsLog(s, pid, x);
    AdmissionExtends(s, pid, x);
    RowsMove(s, Admitted(s, pid, x));
  }

  lemma ExchangeKeepsInv(s: System, pid: Pid, e: Event)
    requires Inv(s) && pid in s.procs && e.Turn? && s.procs[pid].call.Redeem?
    ensures Inv(AwaitExchange(s, pid, e)) && Extends(s, AwaitExchange(s, pid, e))
  {
    var p := s.procs[pid];
    if p.pc.ReadingGrant? {
      ProcessMoves(s, pid, AwaitExchange(s, pid, e).procs[pid]);
    } else if p.pc.CommittingExchange? {
      ExchangeCommitKeepsInv(s, pid, e);
    }
  }

  lemma ExchangeCommitKeepsInv(s: System, pid: Pid, e: Event)
    requires Inv(s) && pid in s.procs && e.Turn? && s.procs[pid].call.Redeem? && s.procs[pid].pc.CommittingExchange?
    ensures Inv(AwaitExchange(s, pid, e)) && Extends(s, AwaitExchange(s, pid, e))
  {
    var p := s.procs[pid];
    var x := Exchange(p.pc.grant, p.call.code, p.pc.row.operator, p.pc.row.client, e.session, e.token, p.call.now);
    ExchangeBatchIsAllOrNothing(s.db, x);
    var b := ExchangeBatch(s.db, x);
    var s' := AwaitExchange(s, pid, e);
    if !e.fate.Effective() || b.Violation? {
      ProcessMoves(s, pid, p.Go(Answered(None)));
    } else if Exchangeable(s.db, x) {
      AdmissionKeepsInv(s, pid, x);
      AdmissionExtends(s, pid, x);
      ProcessMoves(Admitted(s, pid, x), pid, s'.procs[pid]);
      Chain(s, Admitted(s, pid, x), s');
    } else {
      var s1 := s.(db := b.value.0);
      assert s1.db == s.db.(audits := s1.db.audits);
      AuditsAreHarmless(s, s1.db.audits);
      ProcessMoves(s1, pid, p.Go(Answered(None)));
    }
  }

  lemma AuditsAreHarmless(s: System, audits: seq<Audit>)
    requires Inv(s)
    ensures Inv(s.(db := s.db.(audits := audits)))
  {
    var s' := s.(db := s.db.(audits := audits));
    forall id | id in s'.db.sessions
      ensures s'.db.Current(id, s'.db.sessions[id].hash)
    {
      assert s.db.Current(id, s.db.sessions[id].hash);
    }
    RowsMove(s, s');
  }

  /** The rows after this process rotated the token it presented. */
  function Redeemed(s: System, pid: Pid, r: Rotation): System
    requires Rotatable(s.db, r)
  {
    s.(db := AfterRotation(s.db, r), redeemed := s.redeemed + [Redemption(pid, r.session, r.presented, r.next)])
  }

  lemma RedemptionIsLogged(s: System, pid: Pid, r: Rotation)
    requires LogOk(s) && pid in s.procs && Rotatable(s.db, r) && r.next !in s.db.tokens
    ensures LogOk(Redeemed(s, pid, r)) && Logged(Redeemed(s, pid, r), pid, r.presented)
  {
    var s' := Redeemed(s, pid, r);
    var n := |s.redeemed|;
    assert s'.redeemed[n].presented == r.presented;
    forall t | t in s'.db.tokens && s'.db.tokens[t].rotatedAt.Some?
      ensures InLog(s'.redeemed, t)
    {
      if t != r.presented {
        var k :| 0 <= k < n && s.redeemed[k].presented == t;
        assert s'.redeemed[k] == s.redeemed[k];
      }
    }
  }

  lemma RedemptionExtends(s: System, pid: Pid, r: Rotation)
    requires Inv(s) && Rotatable(s.db, r) && r.next !in s.db.tokens
    ensures Extends(s, Redeemed(s, pid, r))
  {}

  lemma RedemptionKeepsInv(s: System, pid: Pid, r: Rotation)
    requires Inv(s) && pid in s.procs && Rotatable(s.db, r) && r.next !in s.db.tokens
    ensures Inv(Redeemed(s, pid, r))
  {
    RotationKeepsValid(s.db, r);
    RedemptionIsLogged(s, pid, r);
    RedemptionExtends(s, pid, r);
    RowsMove(s, Redeemed(s, pid, r));
  }

  lemma RevocationKeepsInv(s: System, session: Guid, at: Time, audits: seq<Audit>)
    requires Inv(s) && session in s.db.sessions
    ensures
      var s' := s.(db := s.db.WithSession(session, s.db.sessions[session].(revokedAt := Some(at))).(audits := audits));
      Inv(s') && Extends(s, s')
  {
    RevocationKeepsValid(s.db, session, at, audits);
    RowsMove(s, s.(db := s.db.WithSession(session, s.db.sessions[session].(revokedAt := Some(at))).(audits := audits)));
  }

  lemma RedemptionCommitKeepsInv(s: System, pid: Pid, r: Rotation, p: Proc)
    requires Inv(s) && pid in s.procs && Rotatable(s.db, r) && r.next !in s.db.tokens
    requires p.pc.Answered? && p.call.Refresh? && p.call.presented == r.presented
    ensures var s' := Put(Redeemed(s, pid, r), pid, p); Inv(s') && Extends(s, s')
  {
    RedemptionKeepsInv(s, pid, r);
    RedemptionIsLogged(s, pid, r);
    RedemptionExtends(s, pid, r);
    ProcessMoves(Redeemed(s, pid, r), pid, p);
    Chain(s, Redeemed(s, pid, r), Put(Redeemed(s, pid, r), pid, p));
  }

  lemma ReuseKeepsInv(s: System, r: Rotation)
    requires Inv(s) && Reused(s.db, r)
    ensures Inv(s.(db := AfterReuse(s.db, r))) && Extends(s, s.(db := AfterReuse(s.db, r)))
  {
    RevocationKeepsInv(s, r.session, r.now, AfterReuse(s.db, r).audits);
    var revoked := s.db.WithSession(r.session, s.db.sessions[r.session].(revokedAt := Some(r.now)));
    assert revoked.(audits := AfterReuse(s.db, r).audits) == AfterReuse(s.db, r);
  }

  lemma ReuseCommitKeepsInv(s: System, pid: Pid, r: Rotation)
    requires Inv(s) && pid in s.procs && Reused(s.db, r)
    ensures var s' := Put(s.(db := AfterReuse(s.db, r)), pid, s.procs[pid].Go(Answered(None)));
      Inv(s') && Extends(s, s')
  {
    var s1 := s.(db := AfterReuse(s.db, r));
    var p := s.procs[pid].Go(Answered(None));
    ReuseKeepsInv(s, r);
    ProcessMoves(s1, pid, p);
    Chain(s, s1, Put(s1, pid, p));
  }

  lemma RotationCommitKeepsInv(s: System, pid: Pid, e: Event)
    requires Inv(s) && pid in s.procs && e.Turn? && s.procs[pid].call.Refresh? && s.procs[pid].pc.CommittingRotation?
    ensures Inv(AwaitRefresh(s, pid, e)) && Extends(s, AwaitRefresh(s, pid, e))
  {
    var p := s.procs[pid];
    var r := Rotation(p.call.session, p.call.presented, e.token, p.call.now);
    RotateBatchIsOneOfThree(s.db, r);
    var s' := AwaitRefresh(s, pid, e);
    if !e.fate.Effective() || RotateBatch(s.db, r).Violation? {
      ProcessMoves(s, pid, p.Go(Answered(None)));
    } else if Reused(s.db, r) {
      ReuseCommitKeepsInv(s, pid, r);
    } else if Rotatable(s.db, r) {
      RedemptionCommitKeepsInv(s, pid, r, s'.procs[pid]);
    } else {
      ProcessMoves(s, pid, p.Go(Answered(None)));
    }
  }

  lemma RefreshReadKeepsInv(s: System, pid: Pid, e: Event)
    requires Inv(s) && pid in s.procs && e.Turn? && s.procs[pid].call.Refresh? && !s.procs[pid].pc.CommittingRotation?
    ensures Inv(AwaitRefresh(s, pid, e)) && Extends(s, AwaitRefresh(s, pid, e))
  {
    var p := AwaitRefresh(s, pid, e).procs[pid];
    assert ProcOk(s, pid, s.procs[pid]);
    assert ProcOk(s, pid, p);
    ProcessMoves(s, pid, p);
    assert AwaitRefresh(s, pid, e) == s || AwaitRefresh(s, pid, e) == Put(s, pid, p);
  }

  lemma RefreshKeepsInv(s: System, pid: Pid, e: Event)
    requires Inv(s) && pid in s.procs && e.Turn? && s.procs[pid].call.Refresh?
    ensures Inv(AwaitRefresh(s, pid, e)) && Extends(s, AwaitRefresh(s, pid, e))
  {
    if s.procs[pid].pc.CommittingRotation? {
      RotationCommitKeepsInv(s, pid, e);
    } else {
      RefreshReadKeepsInv(s, pid, e);
    }
  }

  lemma LogoutKeepsInv(s: System, pid: Pid, e: Event)
    requires Inv(s) && pid in s.procs && e.Turn? && s.procs[pid].call.Logout?
    ensures Inv(AwaitLogout(s, pid, e)) && Extends(s, AwaitLogout(s, pid, e))
  {
    var p := s.procs[pid];
    var c := p.call;
    var s' := AwaitLogout(s, pid, e);
    if p.pc.CommittingRevocation? && e.fate.Effective() && s.db.Live(c.session) && s.db.Issued(c.session, c.presented) {
      var s1 := s.(db := RevokeKnown(s.db, c.session, c.presented, c.now).0);
      RevocationKeepsInv(s, c.session, c.now, s1.db.audits);
      ProcessMoves(s1, pid, p.Go(Answered(None)));
      Chain(s, s1, s');
    } else {
      assert ProcOk(s, pid, p);
      ProcessMoves(s, pid, s'.procs[pid]);
    }
  }

  lemma GrantIsAdded(s: System, id: Guid, g: Grant, now: Time)
    requires LogOk(s) && CreateGrant(s.db, id, g, now).Done?
    ensures var s' := s.(db := CreateGrant(s.db, id, g, now).value); LogOk(s') && Extends(s, s')
  {}

  lemma AuthorizeKeepsInv(s: System, id: Guid, g: Grant, now: Time)
    requires Inv(s) && CreateGrant(s.db, id, g, now).Done?
    ensures var s' := s.(db := CreateGrant(s.db, id, g, now).value); Inv(s') && Extends(s, s')
  {
    CreateGrantKeepsValid(s.db, id, g, now);
    GrantIsAdded(s, id, g, now);
    RowsMove(s, s.(db := CreateGrant(s.db, id, g, now).value));
  }

  lemma OperatorKeepsInv(s: System, session: Guid, operator: nat, now: Time)
    requires Inv(s)
    ensures var s' := s.(db := RevokeByOperator(s.db, session, operator, now).0); Inv(s') && Extends(s, s')
  {
    var audits := RevokeByOperator(s.db, session, operator, now).0.audits;
    if s.db.Live(session) && s.db.sessions[session].operator == operator {
      RevocationKeepsInv(s, session, now, audits);
    } else {
      AuditsAreHarmless(s, audits);
    }
  }

  lemma StepKeepsInv(s: System, e: Event)
    requires Inv(s)
    ensures Inv(Step(s, e)) && Extends(s, Step(s, e))
  {
    match e
    case Authorize(id, g, now) => if CreateGrant(s.db, id, g, now).Done? { AuthorizeKeepsInv(s, id, g, now); }
    case OperatorRevokes(session, operator, now) => OperatorKeepsInv(s, session, operator, now);
    case Begin(pid, c) =>
      if pid !in s.procs { ProcessMoves(s, pid, Step(s, e).procs[pid]); }
    case Turn(pid, _, _, _) =>
      if pid in s.procs {
        if s.procs[pid].call.Redeem? { ExchangeKeepsInv(s, pid, e); }
        else if s.procs[pid].call.Refresh? { RefreshKeepsInv(s, pid, e); }
        else { LogoutKeepsInv(s, pid, e); }
      }
    case Crash(pid) =>
      if pid in s.procs && !s.procs[pid].pc.Answered? { ProcessMoves(s, pid, s.procs[pid].Go(Answered(None))); }
  }

  lemma {:induction false} RunKeepsInv(s: System, es: seq<Event>)
    requires Inv(s)
    ensures Inv(Run(s, es)) && Extends(s, Run(s, es))
    decreases es
  {
    if es != [] {
      StepKeepsInv(s, es[0]);
      RunKeepsInv(Step(s, es[0]), es[1..]);
    }
  }

  /** Nothing happens to this session's row and it redeems nothing. */
  ghost predicate Frozen(a: System, b: System, session: Guid) {
    && session in a.db.sessions && session in b.db.sessions && b.db.sessions[session] == a.db.sessions[session]
    && |a.redeemed| <= |b.redeemed|
    && (forall k | |a.redeemed| <= k < |b.redeemed| :: b.redeemed[k].session != session)
  }

  /** A revoked session is beyond every batch. */
  lemma RevokedIsInert(db: AuthDb, r: Rotation, session: Guid)
    requires Valid(db) && session in db.sessions && db.sessions[session].revokedAt.Some? && RotateBatch(db, r).Done?
    ensures
      var (d, changes) := RotateBatch(db, r).value;
      && session in d.sessions && d.sessions[session] == db.sessions[session]
      && (changes == ROTATED ==> r.session != session)
  {
    RotateBatchIsOneOfThree(db, r);
  }

  lemma RefreshKeepsRevoked(s: System, pid: Pid, e: Event, session: Guid)
    requires Valid(s.db) && session in s.db.sessions && s.db.sessions[session].revokedAt.Some?
    requires pid in s.procs && e.Turn? && s.procs[pid].call.Refresh?
    ensures Frozen(s, AwaitRefresh(s, pid, e), session)
  {
    var c := s.procs[pid].call;
    var r := Rotation(c.session, c.presented, e.token, c.now);
    if RotateBatch(s.db, r).Done? { RevokedIsInert(s.db, r, session); }
  }

  lemma ExchangeKeepsRevoked(s: System, pid: Pid, e: Event, session: Guid)
    requires Valid(s.db) && session in s.db.sessions
    requires pid in s.procs && e.Turn? && s.procs[pid].call.Redeem?
    ensures Frozen(s, AwaitExchange(s, pid, e), session)
  {
    var p := s.procs[pid];
    if p.pc.CommittingExchange? {
      var x := Exchange(p.pc.grant, p.call.code, p.pc.row.operator, p.pc.row.client, e.session, e.token, p.call.now);
      ExchangeBatchIsAllOrNothing(s.db, x);
    }
  }

  lemma LogoutKeepsRevoked(s: System, pid: Pid, e: Event, session: Guid)
    requires session in s.db.sessions && s.db.sessions[session].revokedAt.Some?
    requires pid in s.procs && e.Turn? && s.procs[pid].call.Logout?
    ensures Frozen(s, AwaitLogout(s, pid, e), session)
  {}

  lemma OutsideKeepsRevoked(s: System, e: Event, session: Guid)
    requires session in s.db.sessions && s.db.sessions[session].revokedAt.Some?
    requires !e.Turn?
    ensures Frozen(s, Step(s, e), session)
  {}

  /** Revocation is never undone, and a revoked session keeps its hash. */
  lemma StepKeepsRevoked(s: System, e: Event, session: Guid)
    requires Inv(s) && session in s.db.sessions && s.db.sessions[session].revokedAt.Some?
    ensures Frozen(s, Step(s, e), session)
  {
    if e.Turn? && e.pid in s.procs {
      if s.procs[e.pid].call.Refresh? { RefreshKeepsRevoked(s, e.pid, e, session); }
      else if s.procs[e.pid].call.Redeem? { ExchangeKeepsRevoked(s, e.pid, e, session); }
      else { LogoutKeepsRevoked(s, e.pid, e, session); }
    } else if !e.Turn? {
      OutsideKeepsRevoked(s, e, session);
    }
  }

  lemma FrozenChain(a: System, b: System, c: System, session: Guid)
    requires Frozen(a, b, session) && Frozen(b, c, session) && b.redeemed <= c.redeemed
    ensures Frozen(a, c, session)
  {}

  lemma {:induction false} RunKeepsRevoked(s: System, es: seq<Event>, session: Guid)
    requires Inv(s) && session in s.db.sessions && s.db.sessions[session].revokedAt.Some?
    ensures Frozen(s, Run(s, es), session)
    decreases es
  {
    if es != [] {
      var s1 := Step(s, es[0]);
      StepKeepsRevoked(s, es[0], session);
      StepKeepsInv(s, es[0]);
      RunKeepsRevoked(s1, es[1..], session);
      RunKeepsInv(s1, es[1..]);
      FrozenChain(s, s1, Run(s1, es[1..]), session);
    }
  }

  // ---- Main results --------------------------------------------------------

  /** Every session, live or revoked, has exactly one unrotated token, and it is the one the session row names. */
  lemma OneCurrentToken(es: seq<Event>, session: Guid, token: Hash)
    requires session in Run(START, es).db.sessions
    ensures Run(START, es).db.Current(session, token) <==> token == Run(START, es).db.sessions[session].hash
  {
    RunKeepsInv(START, es);
  }

  /**
   * In every run, whatever token is presented for whatever session: the batch
   * is a rotation, a revocation, or nothing.
   */
  lemma BatchesAreWhole(es: seq<Event>, r: Rotation)
    ensures
      var db := Run(START, es).db;
      var b := RotateBatch(db, r);
      && (b.Done? ==> b.value.1 in {ROTATED, REVOKED, UNTOUCHED} && b.value == Expected(db, r))
      && (b.Violation? ==> r.next in db.tokens)
  {
    RunKeepsInv(START, es);
    RotateBatchIsOneOfThree(Run(START, es).db, r);
  }

  /** A token is redeemed at most once, whoever presents it and whatever is lost on the way. */
  lemma TokensAreRedeemedOnce(es: seq<Event>)
    ensures var log := Run(START, es).redeemed;
      forall j, k | 0 <= j < k < |log| :: log[j].presented != log[k].presented
  {
    RunKeepsInv(START, es);
  }

  ghost predicate Got(s: System, pid: Pid, presented: Hash) {
    && pid in s.procs && s.procs[pid].call.Refresh? && s.procs[pid].call.presented == presented
    && s.procs[pid].pc.Answered? && s.procs[pid].pc.answer.Some?
  }

  /** At most one caller ever receives a new token for the same refresh token. */
  lemma OneCallerPerToken(es: seq<Event>, p: Pid, q: Pid, presented: Hash)
    requires Got(Run(START, es), p, presented) && Got(Run(START, es), q, presented)
    ensures p == q
  {
    RunKeepsInv(START, es);
    GotIsLogged(Run(START, es), p, presented);
    GotIsLogged(Run(START, es), q, presented);
    LoggedByOne(Run(START, es), p, q, presented);
  }

  lemma LoggedByOne(s: System, p: Pid, q: Pid, presented: Hash)
    requires LogOk(s) && Logged(s, p, presented) && Logged(s, q, presented)
    ensures p == q
  {
    var j :| 0 <= j < |s.redeemed| && s.redeemed[j].pid == p && s.redeemed[j].presented == presented;
    var k :| 0 <= k < |s.redeemed| && s.redeemed[k].pid == q && s.redeemed[k].presented == presented;
    assert j == k;
  }

  lemma GotIsLogged(s: System, pid: Pid, presented: Hash)
    requires Inv(s)
    ensures Got(s, pid, presented) ==> Logged(s, pid, presented)
  {}

  /** A call that starts with an already rotated token never receives a new one. */
  lemma RotatedTokensBuyNothing(es: seq<Event>, more: seq<Event>, pid: Pid, presented: Hash)
    requires var s := Run(START, es);
      pid !in s.procs && presented in s.db.tokens && s.db.tokens[presented].rotatedAt.Some?
    ensures !Got(Run(Run(START, es), more), pid, presented)
  {
    RunKeepsInv(START, es);
    var s := Run(START, es);
    assert InLog(s.redeemed, presented);
    RunKeepsInv(s, more);
    LoggedByAnother(s, Run(s, more), pid, presented);
    GotIsLogged(Run(s, more), pid, presented);
  }

  lemma LoggedByAnother(a: System, b: System, pid: Pid, presented: Hash)
    requires LogOk(a) && LogOk(b) && a.redeemed <= b.redeemed && pid !in a.procs && InLog(a.redeemed, presented)
    ensures !Logged(b, pid, presented)
  {}

  /** A call about to run its batch for a token that was rotated before. */
  ghost predicate PresentsRotated(s: System, pid: Pid) {
    && pid in s.procs && s.procs[pid].call.Refresh? && s.procs[pid].pc.CommittingRotation?
    && s.procs[pid].call.presented in s.db.tokens && s.db.tokens[s.procs[pid].call.presented].rotatedAt.Some?
  }

  /** An eligible call gets that far: both reads let it through. */
  lemma EligibleReuseReachesTheBatch(s: System, pid: Pid, read: Event, look: Event)
    requires pid in s.procs && s.procs[pid].call.Refresh? && s.procs[pid].pc.ReadingSession?
    requires
      var c := s.procs[pid].call;
      && s.db.Issued(c.session, c.presented) && s.db.tokens[c.presented].rotatedAt.Some?
      && c.session in s.db.sessions && MayRefresh(s.db.sessions[c.session], c)
    requires read.Turn? && read.pid == pid && read.fate.Acked? && look.Turn? && look.pid == pid && look.fate.Acked?
    ensures PresentsRotated(Step(Step(s, read), look), pid)
  {}

  /** The batch of such a call leaves the session revoked. */
  lemma ReuseRevokes(s: System, pid: Pid, e: Event)
    requires Inv(s) && PresentsRotated(s, pid) && e.Turn? && e.pid == pid && e.fate.Effective()
    ensures
      var session := s.procs[pid].call.session;
      && session in s.db.sessions && session in Step(s, e).db.sessions
      && Step(s, e).db.sessions[session].revokedAt.Some?
      && Step(s, e).db.sessions[session].hash == s.db.sessions[session].hash
      && Step(s, e).redeemed == s.redeemed
  {
    var p := s.procs[pid];
    assert ProcOk(s, pid, p);
    var r := Rotation(p.call.session, p.call.presented, e.token, p.call.now);
    assert s.db.Current(r.session, s.db.sessions[r.session].hash);
    RotateBatchIsOneOfThree(s.db, r);
    ReuseCannotThrow(s.db, r);
  }

  /**
   * Presenting a rotated token of an eligible session revokes the session for
   * good: once the batch of such a call takes effect, whatever happens later,
   * nobody is let in and no token of that session is redeemed again.
   */
  lemma ReuseRevokesForGood(
    es: seq<Event>, pid: Pid, e: Event, more: seq<Event>, subject: nat, allowed: set<nat>, now: Time)
    requires PresentsRotated(Run(START, es), pid)
    requires e.Turn? && e.pid == pid && e.fate.Effective()
    ensures
      var s := Run(START, es);
      var s2 := Run(Step(s, e), more);
      var session := s.procs[pid].call.session;
      && Frozen(Step(s, e), s2, session) && s2.db.sessions[session].revokedAt.Some?
      && session in s.db.sessions && s2.db.sessions[session].hash == s.db.sessions[session].hash
      && Step(s, e).redeemed == s.redeemed
      && ActiveSession(s2.db, session, subject, allowed, now).None?
  {
    RunKeepsInv(START, es);
    ReuseStaysRevoked(Run(START, es), pid, e, more);
  }

  lemma ReuseStaysRevoked(s: System, pid: Pid, e: Event, more: seq<Event>)
    requires Inv(s) && PresentsRotated(s, pid) && e.Turn? && e.pid == pid && e.fate.Effective()
    ensures
      var session := s.procs[pid].call.session;
      && Frozen(Step(s, e), Run(Step(s, e), more), session)
      && session in s.db.sessions && Step(s, e).db.sessions[session].hash == s.db.sessions[session].hash
      && Step(s, e).db.sessions[session].revokedAt.Some? && Step(s, e).redeemed == s.redeemed
  {
    ReuseRevokes(s, pid, e);
    StepKeepsInv(s, e);
    RunKeepsRevoked(Step(s, e), more, s.procs[pid].call.session);
  }

  lemma ReuseCannotThrow(db: AuthDb, r: Rotation)
    requires !db.Live(r.session) || Reused(db, r)
    ensures RotateBatch(db, r).Done?
  {}

  /** A grant belongs to at most one session. */
  lemma GrantYieldsOneSession(es: seq<Event>, a: Guid, b: Guid)
    requires a in Run(START, es).db.sessions && b in Run(START, es).db.sessions
    requires Run(START, es).db.sessions[a].grant == Run(START, es).db.sessions[b].grant
    ensures a == b
  {
    RunKeepsInv(START, es);
  }

  ghost predicate Exchanged(s: System, pid: Pid, code: Hash) {
    && pid in s.procs && s.procs[pid].call.Redeem? && s.procs[pid].call.code == code
    && s.procs[pid].pc.Answered? && s.procs[pid].pc.answer.Some?
  }

  /** At most one caller ever receives a session for the same authorization code. */
  lemma OneCallerPerCode(es: seq<Event>, p: Pid, q: Pid, code: Hash)
    requires Exchanged(Run(START, es), p, code) && Exchanged(Run(START, es), q, code)
    ensures p == q
  {
    RunKeepsInv(START, es);
    var s := Run(START, es);
    assert ProcOk(s, p, s.procs[p]) && ProcOk(s, q, s.procs[q]);
  }
}
