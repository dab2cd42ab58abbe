/**
 * Connect, refresh, access and disconnect as concurrent processes over the
 * connection rows and the credential vault. One turn of a process is one
 * await; any turn may crash, fail, or take effect without being acknowledged.
 */
module ExchangeCredentialRotation {
  import opened Wrappers
  import opened ExchangeConnectionStore

  type Pid = nat
  type Token = nat

  /** A vault object: a live encrypted token, or a tombstone. */
  datatype Cell = Cell(etag: nat, content: Option<Token>)

  datatype Kind = ConnectFlow(flow: Guid, flowGeneration: nat) | Check | Access | Disconnect

  datatype Pc =
    | Acquiring
    | ReadingOld            // read the credential the pointer named at acquisition
    | AskingProvider
    | MarkingReauth
    | WritingNew            // create-only put of the new credential
    | CheckingNew           // read back after an ambiguous put
    | Committing
    | ObservingCommit       // read back after an ambiguous commit
    | Renewing
    | Operating             // the one bounded Graph operation
    | Disconnecting
    | ObservingDisconnect
    | Unwinding             // entry of the finally block
    | QueueingNew
    | DrainChecking
    | DrainListing
    | CleanReading(jobs: seq<Guid>)
    | CleanTombstoning(jobs: seq<Guid>, etag: nat)
    | CleanObserving(jobs: seq<Guid>)
    | CleanCompleting(jobs: seq<Guid>)
    | Releasing
    | Finished

  datatype Proc = Proc(
    kind: Kind, owner: Guid, generation: nat, version: nat, credential: Option<Guid>,
    newVersion: Option<Guid>, token: Token, committed: bool, commitUnknown: bool, pc: Pc)
  {
    function AsGuard(): Guard { Guard(owner, generation, version) }
    function Go(next: Pc): Proc { this.(pc := next) }
    predicate MustQueue() { newVersion.Some? && !committed && !commitUnknown }

    /** The process may still make its new version the active pointer. */
    predicate Holds(v: Guid) {
      newVersion == Some(v) && (pc.WritingNew? || pc.CheckingNew? || pc.Committing?)
    }

    function Jobs(): seq<Guid> {
      match pc
      case CleanReading(js) => js
      case CleanTombstoning(js, _) => js
      case CleanObserving(js) => js
      case CleanCompleting(js) => js
      case _ => []
    }
  }

  /** granted records which token the provider issued for each version id ever drawn. */
  datatype System = System(db: Db, vault: map<Guid, Cell>, nextEtag: nat, granted: map<Guid, Token>,
                           procs: map<Pid, Proc>)

  const START := System(EMPTY, map[], 0, map[], map[])

  datatype Answer = Granted(version: Guid, token: Token) | NeedsReauth | Refused

  /** One scheduling decision; everything the process cannot choose is in it. */
  datatype Event =
    | Spawn(pid: Pid, kind: Kind, owner: Guid)
    | Turn(pid: Pid, fate: Fate, now: Time, answer: Answer, listing: seq<Guid>)
    | Throw(pid: Pid)        // any other exception: identity mismatch, expired code, refused request
    | Crash(pid: Pid)
    | Rows(change: FlowChange)

  /** What the start, callback and claim endpoints do to the rows. */
  datatype FlowChange =
    | Ensured(tenant: Guid, mailbox: Guid, client: Guid)
    | Created(id: Guid, f: Flow, at: Time)
    | CallbackClaimed(stateHash: nat, at: Time)
    | CallbackFinished(id: Guid, generation: nat, at: Time)
    | Claimed(id: Guid, binderHash: nat, operator: nat, at: Time)
    | FlowAborted(id: Guid)

  function ChangeFlows(db: Db, c: FlowChange): Db {
    match c
    case Ensured(t, m, cl) => EnsureConnection(db, t, m, cl)
    case Created(id, f, now) => CreateFlow(db, id, f, now).0
    case CallbackClaimed(h, now) => ClaimCallback(db, h, now)
    case CallbackFinished(id, g, now) => FinishCallback(db, id, g, now).0
    case Claimed(id, b, op, now) => ClaimFinalize(db, id, b, op, now).0
    case FlowAborted(id) => FailFlow(db, id).0
  }

  function Put(s: System, p: Pid, proc: Proc): System { s.(procs := s.procs[p := proc]) }

  predicate Live(s: System, v: Guid) { v in s.vault && s.vault[v].content.Some? }

  /** The new pointer was read back and is attributable to this process. */
  predicate Attributable(proc: Proc, db: Db) {
    && proc.newVersion.Some?
    && db.connection.Some?
    && db.connection.value.credential == proc.newVersion
    && db.connection.value.status == Connected
    && (proc.kind.Access? ==>
         db.connection.value.At(proc.generation, proc.version + 1) && db.LeaseOwner() == Some(proc.owner))
  }

  /** After a commit: the access path renews its lease, the others drain. */
  function Won(proc: Proc): Proc {
    proc.(committed := true, commitUnknown := false, version := proc.version + 1,
          pc := if proc.kind.Access? then Renewing else DrainChecking)
  }

  /** The first await of the finally block, per kind. */
  function Unwound(proc: Proc): Pc {
    if proc.kind.Disconnect? then Releasing
    else if proc.MustQueue() then QueueingNew
    else if proc.kind.Access? && proc.committed then DrainChecking
    else Releasing
  }

  /** What an exception does at this await. */
  function Thrown(proc: Proc): Proc {
    match proc.pc
    case Acquiring => if proc.kind.ConnectFlow? then proc.Go(Unwinding) else proc.Go(Finished)
    case WritingNew => proc.Go(CheckingNew)
    case Committing => proc.(commitUnknown := true, pc := ObservingCommit)
    case Disconnecting => proc.Go(ObservingDisconnect)
    case CleanReading(js) => proc.Go(NextJob(js))
    case CleanTombstoning(js, _) => proc.Go(CleanObserving(js))
    case CleanObserving(js) => proc.Go(NextJob(js))
    case Unwinding | QueueingNew | DrainChecking | DrainListing | CleanCompleting(_) => proc.Go(Releasing)
    case Releasing | Finished => proc.Go(Finished)
    case _ => proc.Go(Unwinding)
  }

  function NextJob(jobs: seq<Guid>): Pc {
    if |jobs| <= 1 then Releasing else CleanReading(jobs[1..])
  }

  /** The row an acquisition returned decides the path taken. */
  function Acquired(proc: Proc, c: Connection): Proc {
    var p := proc.(generation := c.generation, version := c.version, credential := c.credential);
    match proc.kind
    case ConnectFlow(_, _) => if c.status == Connected then p.Go(Unwinding) else p.Go(AskingProvider)
    case Check =>
      if c.status != Connected then p.Go(DrainChecking)
      else if c.credential.None? then p.Go(Unwinding) else p.Go(ReadingOld)
    case Access => if c.status != Connected || c.credential.None? then p.Go(Unwinding) else p.Go(ReadingOld)
    case Disconnect => p.Go(Disconnecting)
  }

  function AcquireTurn(s: System, pid: Pid, e: Event): System
    requires pid in s.procs && e.Turn?
  {
    var p := s.procs[pid];
    var (db, row) := AcquireLease(s.db, p.owner, if p.kind.ConnectFlow? then Some(p.kind.flowGeneration) else None,
                                  None, e.now);
    var s1 := if e.fate.Effective() then s.(db := db) else s;
    Put(s1, pid, if e.fate.Acked? && row.Some? then Acquired(p, row.value) else Thrown(p))
  }

  /** Read the old token, exchange it, or record that the mailbox must be authorized again. */
  function RefreshTurn(s: System, pid: Pid, e: Event): System
    requires pid in s.procs && e.Turn?
    requires s.procs[pid].pc.ReadingOld? || s.procs[pid].pc.AskingProvider? || s.procs[pid].pc.MarkingReauth?
  {
    var p := s.procs[pid];
    match p.pc
    case ReadingOld =>
      Put(s, pid, if e.fate.Acked? && p.credential.Some? && Live(s, p.credential.value) then p.Go(AskingProvider)
          else Thrown(p))
    case AskingProvider =>
      (match e.answer
       case Granted(v, t) =>
         if v in s.granted then s
         else Put(s.(granted := s.granted[v := t]), pid, p.(newVersion := Some(v), token := t, pc := WritingNew))
       case NeedsReauth => Put(s, pid, if p.kind.ConnectFlow? then Thrown(p) else p.Go(MarkingReauth))
       case Refused => Put(s, pid, Thrown(p)))
    case MarkingReauth =>
      var s1 := if e.fate.Effective()
        then s.(db := CommitConnection(s.db, p.AsGuard(), ReauthRequired, p.credential, e.now).0) else s;
      Put(s1, pid, p.Go(Unwinding))
  }

  function Written(s: System, v: Guid, token: Token): System {
    s.(vault := s.vault[v := Cell(s.nextEtag, Some(token))], nextEtag := s.nextEtag + 1)
  }

  function Erased(s: System, v: Guid): System {
    s.(vault := s.vault[v := Cell(s.nextEtag, None)], nextEtag := s.nextEtag + 1)
  }

  /** Create-only put of the new credential. */
  function WriteTurn(s: System, pid: Pid, e: Event): System
    requires pid in s.procs && e.Turn?
  {
    var p := s.procs[pid];
    if p.newVersion.None? || p.newVersion.value in s.vault then Put(s, pid, Thrown(p)) else
    var s1 := if e.fate.Effective() then Written(s, p.newVersion.value, p.token) else s;
    Put(s1, pid, if e.fate.Acked? then p.Go(Committing) else Thrown(p))
  }

  /** The read that settles an ambiguous put. */
  function CheckTurn(s: System, pid: Pid, e: Event): System
    requires pid in s.procs && e.Turn?
  {
    var p := s.procs[pid];
    var same := p.newVersion.Some? && p.newVersion.value in s.vault
      && s.vault[p.newVersion.value].content == Some(p.token);
    Put(s, pid, if e.fate.Acked? && same then p.Go(Committing) else Thrown(p))
  }

  /** The pointer compare-and-set: alone, or together with the flow. */
  function CommitStatement(db: Db, p: Proc, now: Time): (Db, Option<Connection>)
    requires p.newVersion.Some?
  {
    if p.kind.ConnectFlow? then CommitConnectionFlow(db, p.AsGuard(), p.newVersion.value, p.kind.flow, now)
    else CommitConnection(db, p.AsGuard(), Connected, p.newVersion, now)
  }

  function CommitTurn(s: System, pid: Pid, e: Event): System
    requires pid in s.procs && e.Turn?
  {
    var p := s.procs[pid];
    if p.newVersion.None? then Put(s, pid, Thrown(p)) else
    var (db, row) := CommitStatement(s.db, p, e.now);
    var s1 := if e.fate.Effective() then s.(db := db) else s;
    Put(s1, pid, if !e.fate.Acked? then Thrown(p) else if row.Some? then Won(p) else p.Go(Unwinding))
  }

  function DisconnectTurn(s: System, pid: Pid, e: Event): System
    requires pid in s.procs && e.Turn?
  {
    var p := s.procs[pid];
    var (db, row) := DisconnectConnection(s.db, p.AsGuard(), e.now);
    var s1 := if e.fate.Effective() then s.(db := db) else s;
    Put(s1, pid, if !e.fate.Acked? then Thrown(p) else if row.Some? then p.Go(DrainChecking) else p.Go(Unwinding))
  }

  /** Read-backs after an ambiguous statement, and the Graph operation itself: no rows change. */
  function ObserveTurn(s: System, pid: Pid, e: Event): System
    requires pid in s.procs && e.Turn?
  {
    var p := s.procs[pid];
    var seen := e.fate.Acked?;
    Put(s, pid,
      match p.pc
      case ObservingCommit =>
        if !seen then Thrown(p)
        else if Attributable(p, s.db) then Won(p).(version := s.db.connection.value.version)
        else p.(commitUnknown := false, pc := Unwinding)
      case ObservingDisconnect =>
        if seen && s.db.connection.Some? && s.db.connection.value.status == Disconnected
           && s.db.connection.value.generation > p.generation
        then p.Go(DrainChecking) else Thrown(p)
      case _ => p.Go(Unwinding))
  }

  /** The rows after a statement of the access and finally blocks. */
  function BlockStatement(s: System, p: Proc, now: Time): Db {
    match p.pc
    case Renewing => RenewLease(s.db, p.AsGuard(), now).0
    case Unwinding => if p.kind.ConnectFlow? && !p.committed then FailFlow(s.db, p.kind.flow).0 else s.db
    case QueueingNew => if p.newVersion.Some? then QueueCleanup(s.db, p.newVersion.value) else s.db
    case Releasing => ReleaseLease(s.db, p.owner).0
    case _ => s.db
  }

  function BlockTurn(s: System, pid: Pid, e: Event): System
    requires pid in s.procs && e.Turn?
  {
    var p := s.procs[pid];
    var seen := e.fate.Acked?;
    Put(if e.fate.Effective() then s.(db := BlockStatement(s, p, e.now)) else s, pid,
      match p.pc
      case Renewing => if seen && RenewLease(s.db, p.AsGuard(), e.now).1.Some? then p.Go(Operating) else Thrown(p)
      case Unwinding => if p.kind.ConnectFlow? && !p.committed && !seen then Thrown(p) else p.Go(Unwound(p))
      case QueueingNew => if seen then p.Go(DrainChecking) else Thrown(p)
      case _ => p.Go(Finished))
  }

  /** Cleanup under the lease: check it, then list the jobs. */
  function ListTurn(s: System, pid: Pid, e: Event): System
    requires pid in s.procs && e.Turn?
  {
    var p := s.procs[pid];
    if p.pc.DrainChecking? then
      var held := s.db.connection.Some? && s.db.connection.value.HeldBy(p.owner, e.now);
      Put(s, pid, if e.fate.Acked? && held then p.Go(DrainListing) else Thrown(p))
    else
      var listed := IsListing(s.db, e.listing) && e.listing != [];
      Put(s, pid, if e.fate.Acked? && listed then p.Go(CleanReading(e.listing)) else Thrown(p))
  }

  /** The job's object is read first; a tombstone whose put was not answered is read back. */
  function InspectTurn(s: System, pid: Pid, e: Event): System
    requires pid in s.procs && e.Turn?
  {
    var p := s.procs[pid];
    if !e.fate.Acked? || p.Jobs() == [] then Put(s, pid, Thrown(p)) else
    var v := p.Jobs()[0];
    if p.pc.CleanReading? then
      Put(s, pid, p.Go(if Live(s, v) then CleanTombstoning(p.Jobs(), s.vault[v].etag) else CleanCompleting(p.Jobs())))
    else
      Put(s, pid, if v in s.vault && !Live(s, v) then p.Go(CleanCompleting(p.Jobs())) else Thrown(p))
  }

  /** A tombstone is put over the object only if its etag is the one that was read. */
  function TombstoneTurn(s: System, pid: Pid, e: Event): System
    requires pid in s.procs && e.Turn? && s.procs[pid].pc.CleanTombstoning?
  {
    var p := s.procs[pid];
    var jobs := p.pc.jobs;
    if jobs == [] || jobs[0] !in s.vault || s.vault[jobs[0]].etag != p.pc.etag then Put(s, pid, Thrown(p)) else
    var s1 := if e.fate.Effective() then Erased(s, jobs[0]) else s;
    Put(s1, pid, if e.fate.Acked? then p.Go(CleanCompleting(jobs)) else Thrown(p))
  }

  /** The finished job leaves the queue, and the next one is read. */
  function CompleteTurn(s: System, pid: Pid, e: Event): System
    requires pid in s.procs && e.Turn? && s.procs[pid].pc.CleanCompleting?
  {
    var p := s.procs[pid];
    var jobs := p.pc.jobs;
    var s1 := if e.fate.Effective() && jobs != [] then s.(db := CompleteCleanup(s.db, jobs[0])) else s;
    Put(s1, pid, if e.fate.Acked? then p.Go(NextJob(jobs)) else Thrown(p))
  }

  /** One await of process pid. */
  function Await(s: System, pid: Pid, e: Event): System
    requires pid in s.procs && e.Turn?
  {
    match s.procs[pid].pc
    case Acquiring => AcquireTurn(s, pid, e)
    case ReadingOld | AskingProvider | MarkingReauth => RefreshTurn(s, pid, e)
    case WritingNew => WriteTurn(s, pid, e)
    case CheckingNew => CheckTurn(s, pid, e)
    case Committing => CommitTurn(s, pid, e)
    case Disconnecting => DisconnectTurn(s, pid, e)
    case ObservingCommit | ObservingDisconnect | Operating => ObserveTurn(s, pid, e)
    case Renewing | Unwinding | QueueingNew | Releasing => BlockTurn(s, pid, e)
    case Finished => s
    case DrainChecking | DrainListing => ListTurn(s, pid, e)
    case CleanReading(_) | CleanObserving(_) => InspectTurn(s, pid, e)
    case CleanTombstoning(_, _) => TombstoneTurn(s, pid, e)
    case CleanCompleting(_) => CompleteTurn(s, pid, e)
  }

  function Step(s: System, e: Event): System {
    match e
    case Spawn(pid, kind, owner) =>
      if pid in s.procs then s
      else Put(s, pid, Proc(kind, owner, 0, 0, None, None, 0, false, false, Acquiring))
    case Turn(pid, _, _, _, _) => if pid in s.procs then Await(s, pid, e) else s
    case Throw(pid) => if pid in s.procs then Put(s, pid, Thrown(s.procs[pid])) else s
    case Crash(pid) => if pid in s.procs then Put(s, pid, s.procs[pid].Go(Finished)) else s
    case Rows(c) => s.(db := ChangeFlows(s.db, c))
  }

  function Run(s: System, es: seq<Event>): System
    decreases es
  {
    if es == [] then s else Run(Step(s, es[0]), es[1..])
  }

  // ---- The invariant -------------------------------------------------------

  /** No process can make v the active pointer any more, and it is not active now. */
  ghost predicate Dead(s: System, v: Guid) {
    && v in s.granted
    && s.db.Credential() != Some(v)
    && forall p | p in s.procs :: !s.procs[p].Holds(v)
  }

  /** The vault holds exactly the token the provider issued for v. */
  predicate Sound(s: System, v: Guid) {
    v in s.granted && v in s.vault && s.vault[v].content == Some(s.granted[v])
  }

  ghost predicate PointerOk(s: System) {
    s.db.Credential().Some? ==> Sound(s, s.db.Credential().value)
  }

  /** A version about to be committed is not yet active and is not queued anywhere. */
  ghost predicate HolderOk(s: System, p: Proc) {
    && (p.newVersion.Some? ==> p.newVersion.value in s.granted)
    && ((p.pc.WritingNew? || p.pc.CheckingNew? || p.pc.Committing?) ==>
         && p.newVersion.Some?
         && s.granted[p.newVersion.value] == p.token
         && s.db.Credential() != p.newVersion
         && (p.newVersion.value in s.vault ==> s.vault[p.newVersion.value].content == Some(p.token))
         && (p.pc.Committing? ==> p.newVersion.value in s.vault))
  }

  /** The pointer a process remembers is the pointer while the version it remembers is current. */
  ghost predicate MemoryOk(s: System, p: Proc) {
    (p.pc.ReadingOld? || p.pc.AskingProvider? || p.pc.MarkingReauth?) ==>
      && s.db.connection.Some?
      && p.version <= s.db.connection.value.version
      && (p.version == s.db.connection.value.version ==> p.credential == s.db.connection.value.credential)
  }

  ghost predicate JobsOk(s: System, p: Proc) {
    forall j | j in p.Jobs() :: Dead(s, j)
  }

  ghost predicate OwnersOk(s: System) {
    forall p, q | p in s.procs && q in s.procs && p != q && s.procs[p].newVersion.Some? ::
      s.procs[p].newVersion != s.procs[q].newVersion
  }

  ghost predicate Inv(s: System) {
    && PointerOk(s)
    && OwnersOk(s)
    && (forall p | p in s.procs :: HolderOk(s, s.procs[p]) && MemoryOk(s, s.procs[p]) && JobsOk(s, s.procs[p]))
    && (forall v | v in s.db.cleanup :: Dead(s, v))
    && (forall v | v in s.vault :: v in s.granted)
  }

  /** The invariant holds again, and no dead version came back to life. */
  ghost predicate Safe(s: System, s': System) {
    Inv(s') && forall v :: Dead(s, v) ==> Dead(s', v)
  }

  // ---- One kind of change at a time ----------------------------------------

  /** Only the process moves, and it does not gain the right to commit anything. */
  lemma ProcessMoves(s: System, pid: Pid, p': Proc)
    requires Inv(s) && pid in s.procs
    requires p'.newVersion == s.procs[pid].newVersion
    requires forall v :: p'.Holds(v) ==> s.procs[pid].Holds(v)
    requires HolderOk(s, p') && MemoryOk(s, p') && JobsOk(s, p')
    ensures Safe(s, Put(s, pid, p'))
  {}

  /** The version never falls, and while it stands still so does the pointer. */
  predicate Advances(db: Db, db': Db) {
    db.connection.Some? ==>
      && db'.connection.Some?
      && db.connection.value.version <= db'.connection.value.version
      && (db.connection.value.version == db'.connection.value.version ==>
            db.connection.value.credential == db'.connection.value.credential)
  }

  /** The rows change but the pointer does not, and only dead versions are queued. */
  lemma RowsChange(s: System, db': Db)
    requires Inv(s) && db'.Credential() == s.db.Credential() && Advances(s.db, db')
    requires forall v | v in db'.cleanup :: Dead(s, v)
    ensures Safe(s, s.(db := db'))
    ensures forall p :: HolderOk(s, p) ==> HolderOk(s.(db := db'), p)
    ensures forall p :: MemoryOk(s, p) ==> MemoryOk(s.(db := db'), p)
  {}

  /** The committing process installs its own version; the one it replaces is dead from then on. */
  lemma PointerMoves(s: System, pid: Pid, db': Db, p': Proc)
    requires Inv(s) && pid in s.procs && Advances(s.db, db')
    requires var p := s.procs[pid];
      && (p.pc.Committing? || p.pc.Disconnecting?)
      && p'.newVersion == p.newVersion
      && !(p'.pc.WritingNew? || p'.pc.CheckingNew? || p'.pc.Committing? || p'.pc.ReadingOld? || p'.pc.AskingProvider?
           || p'.pc.MarkingReauth?)
      && p'.Jobs() == []
      && (db'.Credential().None? || (p.pc.Committing? && db'.Credential() == p.newVersion))
      && db'.cleanup == s.db.cleanup + (if s.db.Credential().Some? then {s.db.Credential().value} else {})
    ensures Safe(s, Put(s.(db := db'), pid, p'))
  {
    var s' := Put(s.(db := db'), pid, p');
    var p := s.procs[pid];
    forall v | Dead(s, v) ensures Dead(s', v) {}
    if s.db.Credential().Some? {
      var prior := s.db.Credential().value;
      assert Dead(s', prior) by {
        forall q | q in s.procs ensures !s'.procs[q].Holds(prior) { assert HolderOk(s, s.procs[q]); }
      }
    }
    forall q | q in s'.procs ensures HolderOk(s', s'.procs[q]) && MemoryOk(s', s'.procs[q]) && JobsOk(s', s'.procs[q]) {
      if q != pid { assert HolderOk(s, s.procs[q]); }
    }
  }

  /** A create-only put of the version the process holds. */
  lemma VersionIsWritten(s: System, pid: Pid)
    requires Inv(s) && pid in s.procs && s.procs[pid].pc.WritingNew? && s.procs[pid].newVersion.value !in s.vault
    ensures Safe(s, Written(s, s.procs[pid].newVersion.value, s.procs[pid].token))
  {}

  /** A tombstone written over a dead version. */
  lemma DeadVersionIsErased(s: System, v: Guid)
    requires Inv(s) && Dead(s, v) && v in s.vault
    ensures Safe(s, Erased(s, v))
  {}

  /** The provider issues a token under a fresh version id. */
  lemma VersionIsDrawn(s: System, pid: Pid, v: Guid, t: Token)
    requires Inv(s) && pid in s.procs && v !in s.granted && s.procs[pid].pc.AskingProvider?
    ensures Safe(s, Put(s.(granted := s.granted[v := t]), pid,
                        s.procs[pid].(newVersion := Some(v), token := t, pc := WritingNew)))
  {
    var s' := Put(s.(granted := s.granted[v := t]), pid,
                  s.procs[pid].(newVersion := Some(v), token := t, pc := WritingNew));
    forall w | Dead(s, w) ensures Dead(s', w) {}
    forall q | q in s'.procs ensures HolderOk(s', s'.procs[q]) && MemoryOk(s', s'.procs[q]) && JobsOk(s', s'.procs[q]) {
      if q != pid { assert HolderOk(s, s.procs[q]); }
    }
  }

  /** Along an exception a process keeps its version, and can at most read back its own put. */
  lemma ThrownFacts(p: Proc)
    ensures var p' := Thrown(p);
      && p'.newVersion == p.newVersion && p'.token == p.token
      && !(p'.pc.WritingNew? || p'.pc.Committing? || p'.pc.ReadingOld? || p'.pc.AskingProvider? || p'.pc.MarkingReauth?)
      && (p'.pc.CheckingNew? ==> p.pc.WritingNew?)
      && (forall j | j in p'.Jobs() :: j in p.Jobs())
  {}

  /** An exception never gives a process anything. */
  lemma ThrowIsSafe(s: System, pid: Pid)
    requires Inv(s) && pid in s.procs
    ensures Safe(s, Put(s, pid, Thrown(s.procs[pid])))
  {
    var p := s.procs[pid];
    ThrownFacts(p);
    ProcessMoves(s, pid, Thrown(p));
  }

  /** A process moves to a place where it holds nothing, remembers nothing and has no new jobs. */
  lemma Idles(s: System, pid: Pid, p': Proc)
    requires Inv(s) && pid in s.procs && p'.newVersion == s.procs[pid].newVersion
    requires !(p'.pc.WritingNew? || p'.pc.CheckingNew? || p'.pc.Committing? || p'.pc.ReadingOld?
               || p'.pc.AskingProvider? || p'.pc.MarkingReauth?)
    requires forall j | j in p'.Jobs() :: Dead(s, j)
    ensures Safe(s, Put(s, pid, p'))
  {}

  // ---- One await -----------------------------------------------------------

  /** Rows change quietly: same pointer, no new cleanup jobs. */
  predicate Quiet(db: Db, db': Db) {
    db'.Credential() == db.Credential() && Advances(db, db') && db'.cleanup <= db.cleanup
  }

  lemma AcquireIsQuiet(db: Db, owner: Guid, g: Option<nat>, now: Time)
    ensures var (db', row) := AcquireLease(db, owner, g, None, now);
      Quiet(db, db') && (row.Some? ==> db'.connection == row)
  {}

  /** Whichever path is taken, the process remembers exactly the row it acquired. */
  lemma AcquiredFacts(p: Proc, c: Connection)
    ensures var p' := Acquired(p, c);
      && p'.newVersion == p.newVersion && p'.version == c.version && p'.credential == c.credential
      && !(p'.pc.WritingNew? || p'.pc.CheckingNew? || p'.pc.Committing?) && p'.Jobs() == []
  {}

  lemma AcquireTurnIsSafe(s: System, pid: Pid, e: Event)
    requires Inv(s) && pid in s.procs && e.Turn? && s.procs[pid].pc.Acquiring?
    ensures Safe(s, AcquireTurn(s, pid, e))
  {
    var p := s.procs[pid];
    var g := if p.kind.ConnectFlow? then Some(p.kind.flowGeneration) else None;
    var (db, row) := AcquireLease(s.db, p.owner, g, None, e.now);
    AcquireIsQuiet(s.db, p.owner, g, e.now);
    RowsChange(s, db);
    if e.fate.Acked? && row.Some? {
      AcquiredFacts(p, row.value);
      assert HolderOk(s, p);
      ProcessMoves(s.(db := db), pid, Acquired(p, row.value));
    } else {
      ThrowIsSafe(if e.fate.Effective() then s.(db := db) else s, pid);
    }
  }

  lemma RefreshTurnIsSafe(s: System, pid: Pid, e: Event)
    requires Inv(s) && pid in s.procs && e.Turn?
    requires s.procs[pid].pc.ReadingOld? || s.procs[pid].pc.AskingProvider? || s.procs[pid].pc.MarkingReauth?
    ensures Safe(s, RefreshTurn(s, pid, e))
  {
    var p := s.procs[pid];
    ThrowIsSafe(s, pid);
    match p.pc
    case ReadingOld =>
      if e.fate.Acked? && p.credential.Some? && Live(s, p.credential.value) {
        ProcessMoves(s, pid, p.Go(AskingProvider));
      }
    case AskingProvider =>
      match e.answer {
        case Granted(v, t) => if v !in s.granted { VersionIsDrawn(s, pid, v, t); }
        case NeedsReauth => if !p.kind.ConnectFlow? { ProcessMoves(s, pid, p.Go(MarkingReauth)); }
        case Refused =>
      }
    case MarkingReauth =>
      var db := CommitConnection(s.db, p.AsGuard(), ReauthRequired, p.credential, e.now).0;
      RowsChange(s, db);
      Idles(if e.fate.Effective() then s.(db := db) else s, pid, p.Go(Unwinding));
  }

  /** A process that knows its own put is stored may go on to the commit. */
  lemma StoredMayCommit(s: System, pid: Pid)
    requires Inv(s) && pid in s.procs && (s.procs[pid].pc.WritingNew? || s.procs[pid].pc.CheckingNew?)
    requires s.procs[pid].newVersion.value in s.vault
    ensures Safe(s, Put(s, pid, s.procs[pid].Go(Committing)))
  {
    assert HolderOk(s, s.procs[pid]);
    ProcessMoves(s, pid, s.procs[pid].Go(Committing));
  }

  lemma WriteTurnIsSafe(s: System, pid: Pid, e: Event)
    requires Inv(s) && pid in s.procs && e.Turn? && s.procs[pid].pc.WritingNew?
    ensures Safe(s, WriteTurn(s, pid, e))
  {
    var p := s.procs[pid];
    ThrowIsSafe(s, pid);
    if p.newVersion.Some? && p.newVersion.value !in s.vault && e.fate.Effective() {
      VersionIsWritten(s, pid);
      var s1 := Written(s, p.newVersion.value, p.token);
      if e.fate.Acked? { StoredMayCommit(s1, pid); } else { ThrowIsSafe(s1, pid); }
    }
  }

  lemma CheckTurnIsSafe(s: System, pid: Pid, e: Event)
    requires Inv(s) && pid in s.procs && e.Turn? && s.procs[pid].pc.CheckingNew?
    ensures Safe(s, CheckTurn(s, pid, e))
  {
    var p := s.procs[pid];
    ThrowIsSafe(s, pid);
    if p.newVersion.Some? && p.newVersion.value in s.vault { StoredMayCommit(s, pid); }
  }

  /** A commit either does nothing or installs the version and queues the one it replaces. */
  lemma CommitStatementFacts(db: Db, p: Proc, now: Time)
    requires p.newVersion.Some? && db.Credential() != p.newVersion
    ensures var (db', row) := CommitStatement(db, p, now);
      if row.None? then db' == db
      else && Advances(db, db') && db'.Credential() == p.newVersion
           && db'.cleanup == db.cleanup + (if db.Credential().Some? then {db.Credential().value} else {})
  {}

  lemma CommitTurnIsSafe(s: System, pid: Pid, e: Event)
    requires Inv(s) && pid in s.procs && e.Turn? && s.procs[pid].pc.Committing?
    ensures Safe(s, CommitTurn(s, pid, e))
  {
    var p := s.procs[pid];
    assert HolderOk(s, p);
    CommitStatementFacts(s.db, p, e.now);
    var (db, row) := CommitStatement(s.db, p, e.now);
    var p' := if !e.fate.Acked? then Thrown(p) else if row.Some? then Won(p) else p.Go(Unwinding);
    if e.fate.Effective() && row.Some? {
      PointerMoves(s, pid, db, p');
    } else {
      Idles(s, pid, p');
    }
  }

  /** A disconnect clears the pointer and queues what it named, or leaves pointer and queue alone. */
  lemma DisconnectFacts(db: Db, g: Guard, now: Time)
    ensures var (db', row) := DisconnectConnection(db, g, now);
      if row.None? then Quiet(db, db')
      else && Advances(db, db') && db'.Credential().None?
           && db'.cleanup == db.cleanup + (if db.Credential().Some? then {db.Credential().value} else {})
  {}

  lemma DisconnectTurnIsSafe(s: System, pid: Pid, e: Event)
    requires Inv(s) && pid in s.procs && e.Turn? && s.procs[pid].pc.Disconnecting?
    ensures Safe(s, DisconnectTurn(s, pid, e))
  {
    var p := s.procs[pid];
    DisconnectFacts(s.db, p.AsGuard(), e.now);
    var (db, row) := DisconnectConnection(s.db, p.AsGuard(), e.now);
    var p' := if !e.fate.Acked? then Thrown(p) else if row.Some? then p.Go(DrainChecking) else p.Go(Unwinding);
    if !e.fate.Effective() {
      Idles(s, pid, p');
    } else if row.Some? {
      PointerMoves(s, pid, db, p');
    } else {
      RowsChange(s, db);
      Idles(s.(db := db), pid, p');
    }
  }

  lemma ObserveTurnIsSafe(s: System, pid: Pid, e: Event)
    requires Inv(s) && pid in s.procs && e.Turn?
    requires s.procs[pid].pc.ObservingCommit? || s.procs[pid].pc.ObservingDisconnect? || s.procs[pid].pc.Operating?
    ensures Safe(s, ObserveTurn(s, pid, e))
  {
    var p := s.procs[pid];
    ThrownFacts(p);
    Idles(s, pid, ObserveTurn(s, pid, e).procs[pid]);
  }

  lemma BlockStatementFacts(s: System, p: Proc, now: Time)
    ensures var db := BlockStatement(s, p, now);
      && db.Credential() == s.db.Credential() && Advances(s.db, db)
      && forall v | v in db.cleanup ::
           v in s.db.cleanup || (p.pc.QueueingNew? && p.newVersion == Some(v) && s.db.Credential() != Some(v))
  {}

  lemma BlockMoves(s: System, pid: Pid, e: Event)
    requires pid in s.procs && e.Turn?
    requires s.procs[pid].pc.Renewing? || s.procs[pid].pc.Unwinding? || s.procs[pid].pc.QueueingNew?
      || s.procs[pid].pc.Releasing?
    ensures var p' := BlockTurn(s, pid, e).procs[pid];
      && p'.newVersion == s.procs[pid].newVersion
      && (p'.pc.Operating? || p'.pc.Unwinding? || p'.pc.Releasing? || p'.pc.QueueingNew? || p'.pc.DrainChecking?
          || p'.pc.Finished?)
  {}

  lemma BlockTurnIsSafe(s: System, pid: Pid, e: Event)
    requires Inv(s) && pid in s.procs && e.Turn?
    requires s.procs[pid].pc.Renewing? || s.procs[pid].pc.Unwinding? || s.procs[pid].pc.QueueingNew?
      || s.procs[pid].pc.Releasing?
    ensures Safe(s, BlockTurn(s, pid, e))
  {
    var p := s.procs[pid];
    var db := BlockStatement(s, p, e.now);
    BlockStatementFacts(s, p, e.now);
    forall v | v in db.cleanup ensures Dead(s, v) { assert HolderOk(s, p); }
    RowsChange(s, db);
    BlockMoves(s, pid, e);
    var p' := BlockTurn(s, pid, e).procs[pid];
    assert p'.Jobs() == [];
    var s1 := if e.fate.Effective() then s.(db := db) else s;
    assert BlockTurn(s, pid, e) == Put(s1, pid, p');
    Idles(s1, pid, p');
  }

  lemma NextJobFacts(p: Proc, jobs: seq<Guid>)
    ensures forall j | j in p.Go(NextJob(jobs)).Jobs() :: j in jobs
  {}

  lemma ListTurnIsSafe(s: System, pid: Pid, e: Event)
    requires Inv(s) && pid in s.procs && e.Turn? && (s.procs[pid].pc.DrainChecking? || s.procs[pid].pc.DrainListing?)
    ensures Safe(s, ListTurn(s, pid, e))
  {
    var p := s.procs[pid];
    ThrowIsSafe(s, pid);
    if p.pc.DrainChecking? {
      Idles(s, pid, p.Go(DrainListing));
    } else if IsListing(s.db, e.listing) {
      assert p.Go(CleanReading(e.listing)).Jobs() == e.listing;
      Idles(s, pid, p.Go(CleanReading(e.listing)));
    }
  }

  /** Between reading and completing a job a process keeps the same jobs, or drops the one that failed. */
  lemma CleanMoves(s: System, pid: Pid, pc': Pc)
    requires Inv(s) && pid in s.procs
    requires s.procs[pid].Go(pc').Jobs() == s.procs[pid].Jobs() && (pc'.CleanTombstoning? || pc'.CleanCompleting?)
    ensures Safe(s, Put(s, pid, s.procs[pid].Go(pc')))
  {
    assert JobsOk(s, s.procs[pid]);
    Idles(s, pid, s.procs[pid].Go(pc'));
  }

  lemma InspectTurnIsSafe(s: System, pid: Pid, e: Event)
    requires Inv(s) && pid in s.procs && e.Turn? && (s.procs[pid].pc.CleanReading? || s.procs[pid].pc.CleanObserving?)
    ensures Safe(s, InspectTurn(s, pid, e))
  {
    var jobs := s.procs[pid].Jobs();
    ThrowIsSafe(s, pid);
    CleanMoves(s, pid, CleanCompleting(jobs));
    if jobs != [] && Live(s, jobs[0]) { CleanMoves(s, pid, CleanTombstoning(jobs, s.vault[jobs[0]].etag)); }
  }

  lemma EraseIsSafe(s: System, pid: Pid)
    requires Inv(s) && pid in s.procs && s.procs[pid].pc.CleanTombstoning?
    requires s.procs[pid].pc.jobs != [] && s.procs[pid].pc.jobs[0] in s.vault
    ensures Safe(s, Erased(s, s.procs[pid].pc.jobs[0]))
  {
    var p := s.procs[pid];
    assert p.pc.jobs[0] in p.Jobs() && JobsOk(s, p);
    DeadVersionIsErased(s, p.pc.jobs[0]);
  }

  lemma TombstoneTurnIsSafe(s: System, pid: Pid, e: Event)
    requires Inv(s) && pid in s.procs && e.Turn? && s.procs[pid].pc.CleanTombstoning?
    ensures Safe(s, TombstoneTurn(s, pid, e))
  {
    var jobs := s.procs[pid].pc.jobs;
    ThrowIsSafe(s, pid);
    if e.fate.Effective() && jobs != [] && jobs[0] in s.vault {
      EraseIsSafe(s, pid);
      var s1 := Erased(s, jobs[0]);
      if e.fate.Acked? { CleanMoves(s1, pid, CleanCompleting(jobs)); } else { ThrowIsSafe(s1, pid); }
    }
  }

  /** After one job the process keeps only jobs it already had. */
  lemma NextJobIsSafe(s: System, pid: Pid)
    requires Inv(s) && pid in s.procs && s.procs[pid].pc.CleanCompleting?
    ensures Safe(s, Put(s, pid, s.procs[pid].Go(NextJob(s.procs[pid].pc.jobs))))
  {
    var p := s.procs[pid];
    assert JobsOk(s, p) && p.Jobs() == p.pc.jobs;
    NextJobFacts(p, p.pc.jobs);
    Idles(s, pid, p.Go(NextJob(p.pc.jobs)));
  }

  lemma CompleteTurnIsSafe(s: System, pid: Pid, e: Event)
    requires Inv(s) && pid in s.procs && e.Turn? && s.procs[pid].pc.CleanCompleting?
    ensures Safe(s, CompleteTurn(s, pid, e))
  {
    var jobs := s.procs[pid].pc.jobs;
    var s1 := s;
    if e.fate.Effective() && jobs != [] {
      s1 := s.(db := CompleteCleanup(s.db, jobs[0]));
      RowsChange(s, s1.db);
    }
    if e.fate.Acked? { NextJobIsSafe(s1, pid); } else { ThrowIsSafe(s1, pid); }
  }

  lemma SpawnIsSafe(s: System, pid: Pid, kind: Kind, owner: Guid)
    requires Inv(s) && pid !in s.procs
    ensures Safe(s, Step(s, Spawn(pid, kind, owner)))
  {
    var s' := Step(s, Spawn(pid, kind, owner));
    forall v | Dead(s, v) ensures Dead(s', v) {}
    forall q | q in s'.procs ensures HolderOk(s', s'.procs[q]) && MemoryOk(s', s'.procs[q]) && JobsOk(s', s'.procs[q]) {
      if q != pid { assert HolderOk(s, s.procs[q]); }
    }
  }

  lemma StepIsSafe(s: System, e: Event)
    requires Inv(s)
    ensures Safe(s, Step(s, e))
  {
    match e
    case Spawn(pid, kind, owner) => if pid !in s.procs { SpawnIsSafe(s, pid, kind, owner); }
    case Turn(pid, _, _, _, _) =>
      if pid in s.procs {
        match s.procs[pid].pc
        case Acquiring => AcquireTurnIsSafe(s, pid, e);
        case ReadingOld | AskingProvider | MarkingReauth => RefreshTurnIsSafe(s, pid, e);
        case WritingNew => WriteTurnIsSafe(s, pid, e);
        case CheckingNew => CheckTurnIsSafe(s, pid, e);
        case Committing => CommitTurnIsSafe(s, pid, e);
        case Disconnecting => DisconnectTurnIsSafe(s, pid, e);
        case ObservingCommit | ObservingDisconnect | Operating => ObserveTurnIsSafe(s, pid, e);
        case Renewing | Unwinding | QueueingNew | Releasing => BlockTurnIsSafe(s, pid, e);
        case Finished =>
        case DrainChecking | DrainListing => ListTurnIsSafe(s, pid, e);
        case CleanReading(_) | CleanObserving(_) => InspectTurnIsSafe(s, pid, e);
        case CleanTombstoning(_, _) => TombstoneTurnIsSafe(s, pid, e);
        case CleanCompleting(_) => CompleteTurnIsSafe(s, pid, e);
      }
    case Throw(pid) => if pid in s.procs { ThrowIsSafe(s, pid); }
    case Crash(pid) => if pid in s.procs { Idles(s, pid, s.procs[pid].Go(Finished)); }
    case Rows(c) => RowsChange(s, ChangeFlows(s.db, c));
  }

  lemma {:induction false} RunKeepsInv(s: System, es: seq<Event>)
    requires Inv(s)
    ensures Inv(Run(s, es))
    decreases es
  {
    if es != [] {
      StepIsSafe(s, es[0]);
      RunKeepsInv(Step(s, es[0]), es[1..]);
    }
  }

  // ---- Main results --------------------------------------------------------

  /**
   * In every run, whatever crashes, races and acknowledgements are lost, the
   * object the row points at is a live value: never missing, never a
   * tombstone, and holding the very token the provider issued for it.
   */
  lemma PointerIsAlwaysLive(es: seq<Event>)
    ensures var s := Run(START, es);
      s.db.Credential().Some? ==>
        var v := s.db.Credential().value;
        Live(s, v) && v in s.granted && s.vault[v].content.value == s.granted[v]
  {
    RunKeepsInv(START, es);
  }

  lemma {:induction false} DeadStaysDead(s: System, es: seq<Event>, v: Guid)
    requires Inv(s) && Dead(s, v)
    ensures Dead(Run(s, es), v)
    decreases es
  {
    if es != [] {
      StepIsSafe(s, es[0]);
      DeadStaysDead(Step(s, es[0]), es[1..], v);
    }
  }

  /** A version that was ever queued for cleanup never becomes the active pointer afterwards. */
  lemma QueuedVersionNeverReturns(es: seq<Event>, more: seq<Event>, v: Guid)
    requires v in Run(START, es).db.cleanup
    ensures Run(Run(START, es), more).db.Credential() != Some(v)
  {
    RunKeepsInv(START, es);
    DeadStaysDead(Run(START, es), more, v);
  }

  // ---- Nothing is taken off the queue while its object can still be read ----

  /** The process is about to take v off the cleanup queue. */
  predicate Completes(p: Proc, v: Guid) {
    p.pc.CleanCompleting? && p.pc.jobs != [] && p.pc.jobs[0] == v
  }

  /** Whoever is about to complete a job has seen its object missing or a tombstone. */
  ghost predicate Cleared(s: System) {
    forall p, v | p in s.procs && Completes(s.procs[p], v) :: !Live(s, v)
  }

  /** Only a process that holds a version can write a readable object for it. */
  lemma OnlyAHolderWrites(s: System, e: Event, v: Guid)
    requires !Live(s, v) && Live(Step(s, e), v)
    ensures e.Turn? && e.pid in s.procs && s.procs[e.pid].Holds(v)
  {}

  lemma DeadStaysCold(s: System, e: Event, v: Guid)
    requires Dead(s, v) && !Live(s, v)
    ensures !Live(Step(s, e), v)
  {
    if Live(Step(s, e), v) { OnlyAHolderWrites(s, e, v); }
  }

  /**
   * A turn moves one process. If that process comes to complete a job, the
   * object is gone by then; only a completing process takes a job off the queue.
   */
  ghost predicate TurnFacts(s: System, s': System, pid: Pid)
    requires pid in s.procs
  {
    && pid in s'.procs
    && (forall q | q in s'.procs && q != pid :: q in s.procs && s'.procs[q] == s.procs[q])
    && (forall v | Completes(s'.procs[pid], v) :: !Live(s', v))
    && (forall v | v in s.db.cleanup && v !in s'.db.cleanup :: Completes(s.procs[pid], v))
  }

  lemma ThrownCompletesNothing(p: Proc)
    ensures !Thrown(p).pc.CleanCompleting?
  {}

  /** A turn that can only grow the queue, and leads anywhere but to the completing await. */
  lemma GrowingTurn(s: System, s': System, pid: Pid, p': Proc)
    requires pid in s.procs && s'.procs == s.procs[pid := p'] && s.db.cleanup <= s'.db.cleanup
    requires !p'.pc.CleanCompleting?
    ensures TurnFacts(s, s', pid)
  {}

  lemma StatementsOnlyQueue(s: System, p: Proc, now: Time)
    ensures s.db.cleanup <= BlockStatement(s, p, now).cleanup
    ensures s.db.cleanup <= DisconnectConnection(s.db, p.AsGuard(), now).0.cleanup
    ensures p.newVersion.Some? ==> s.db.cleanup <= CommitStatement(s.db, p, now).0.cleanup
  {}

  lemma AcquireTurnFacts(s: System, pid: Pid, e: Event)
    requires pid in s.procs && e.Turn?
    ensures TurnFacts(s, AcquireTurn(s, pid, e), pid)
  {
    var p := s.procs[pid];
    ThrownCompletesNothing(p);
    var g := if p.kind.ConnectFlow? then Some(p.kind.flowGeneration) else None;
    AcquireIsQuiet(s.db, p.owner, g, e.now);
    var (db, row) := AcquireLease(s.db, p.owner, g, None, e.now);
    if row.Some? { AcquiredFacts(p, row.value); }
    GrowingTurn(s, AcquireTurn(s, pid, e), pid, AcquireTurn(s, pid, e).procs[pid]);
  }

  lemma RefreshTurnFacts(s: System, pid: Pid, e: Event)
    requires pid in s.procs && e.Turn?
    requires s.procs[pid].pc.ReadingOld? || s.procs[pid].pc.AskingProvider? || s.procs[pid].pc.MarkingReauth?
    ensures TurnFacts(s, RefreshTurn(s, pid, e), pid)
  {
    ThrownCompletesNothing(s.procs[pid]);
    GrowingTurn(s, RefreshTurn(s, pid, e), pid, RefreshTurn(s, pid, e).procs[pid]);
  }

  lemma CommitTurnFacts(s: System, pid: Pid, e: Event)
    requires pid in s.procs && e.Turn?
    ensures TurnFacts(s, WriteTurn(s, pid, e), pid) && TurnFacts(s, CheckTurn(s, pid, e), pid)
    ensures TurnFacts(s, CommitTurn(s, pid, e), pid)
  {
    ThrownCompletesNothing(s.procs[pid]);
    StatementsOnlyQueue(s, s.procs[pid], e.now);
    GrowingTurn(s, WriteTurn(s, pid, e), pid, WriteTurn(s, pid, e).procs[pid]);
    GrowingTurn(s, CheckTurn(s, pid, e), pid, CheckTurn(s, pid, e).procs[pid]);
    GrowingTurn(s, CommitTurn(s, pid, e), pid, CommitTurn(s, pid, e).procs[pid]);
  }

  lemma DisconnectTurnFacts(s: System, pid: Pid, e: Event)
    requires pid in s.procs && e.Turn?
    ensures TurnFacts(s, DisconnectTurn(s, pid, e), pid)
  {
    ThrownCompletesNothing(s.procs[pid]);
    StatementsOnlyQueue(s, s.procs[pid], e.now);
    GrowingTurn(s, DisconnectTurn(s, pid, e), pid, DisconnectTurn(s, pid, e).procs[pid]);
  }

  lemma ObserveTurnFacts(s: System, pid: Pid, e: Event)
    requires pid in s.procs && e.Turn?
    ensures TurnFacts(s, ObserveTurn(s, pid, e), pid)
  {
    ThrownCompletesNothing(s.procs[pid]);
    GrowingTurn(s, ObserveTurn(s, pid, e), pid, ObserveTurn(s, pid, e).procs[pid]);
  }

  lemma BlockTurnFacts(s: System, pid: Pid, e: Event)
    requires pid in s.procs && e.Turn?
    ensures TurnFacts(s, BlockTurn(s, pid, e), pid)
  {
    ThrownCompletesNothing(s.procs[pid]);
    StatementsOnlyQueue(s, s.procs[pid], e.now);
    GrowingTurn(s, BlockTurn(s, pid, e), pid, BlockTurn(s, pid, e).procs[pid]);
  }

  lemma ListTurnFacts(s: System, pid: Pid, e: Event)
    requires pid in s.procs && e.Turn?
    ensures TurnFacts(s, ListTurn(s, pid, e), pid)
  {
    ThrownCompletesNothing(s.procs[pid]);
    GrowingTurn(s, ListTurn(s, pid, e), pid, ListTurn(s, pid, e).procs[pid]);
  }

  /** Two of the three ways to the completing await: the object is missing, or already a tombstone. */
  lemma InspectTurnFacts(s: System, pid: Pid, e: Event)
    requires pid in s.procs && e.Turn?
    ensures TurnFacts(s, InspectTurn(s, pid, e), pid)
  {
    ThrownCompletesNothing(s.procs[pid]);
  }

  /** The third: the tombstone was put here. */
  lemma TombstoneTurnFacts(s: System, pid: Pid, e: Event)
    requires pid in s.procs && e.Turn? && s.procs[pid].pc.CleanTombstoning?
    ensures TurnFacts(s, TombstoneTurn(s, pid, e), pid)
  {
    ThrownCompletesNothing(s.procs[pid]);
  }

  lemma CompleteTurnFacts(s: System, pid: Pid, e: Event)
    requires pid in s.procs && e.Turn? && s.procs[pid].pc.CleanCompleting?
    ensures TurnFacts(s, CompleteTurn(s, pid, e), pid)
  {
    ThrownCompletesNothing(s.procs[pid]);
  }

  lemma AwaitFacts(s: System, pid: Pid, e: Event)
    requires pid in s.procs && e.Turn?
    ensures TurnFacts(s, Await(s, pid, e), pid) || Await(s, pid, e) == s
  {
    match s.procs[pid].pc
    case Acquiring => AcquireTurnFacts(s, pid, e);
    case ReadingOld | AskingProvider | MarkingReauth => RefreshTurnFacts(s, pid, e);
    case WritingNew | CheckingNew | Committing => CommitTurnFacts(s, pid, e);
    case Disconnecting => DisconnectTurnFacts(s, pid, e);
    case ObservingCommit | ObservingDisconnect | Operating => ObserveTurnFacts(s, pid, e);
    case Renewing | Unwinding | QueueingNew | Releasing => BlockTurnFacts(s, pid, e);
    case DrainChecking | DrainListing => ListTurnFacts(s, pid, e);
    case CleanReading(_) | CleanObserving(_) => InspectTurnFacts(s, pid, e);
    case CleanTombstoning(_, _) => TombstoneTurnFacts(s, pid, e);
    case CleanCompleting(_) => CompleteTurnFacts(s, pid, e);
    case Finished =>
  }

  /** Every other event leaves the vault alone, only grows the queue and starts no completion. */
  lemma OtherEvents(s: System, e: Event)
    requires !e.Turn?
    ensures var s' := Step(s, e);
      && s'.vault == s.vault && s.db.cleanup <= s'.db.cleanup
      && forall q | q in s'.procs && s'.procs[q].pc.CleanCompleting? :: q in s.procs && s'.procs[q] == s.procs[q]
  {
    if e.Throw? && e.pid in s.procs { ThrownCompletesNothing(s.procs[e.pid]); }
  }

  lemma StepKeepsCleared(s: System, e: Event)
    requires Inv(s) && Cleared(s)
    ensures Cleared(Step(s, e))
  {
    var s' := Step(s, e);
    if e.Turn? && e.pid in s.procs { AwaitFacts(s, e.pid, e); } else if !e.Turn? { OtherEvents(s, e); }
    forall q, v | q in s'.procs && Completes(s'.procs[q], v) ensures !Live(s', v) {
      if !(e.Turn? && e.pid == q) || s' == s {
        assert v in s.procs[q].Jobs() && JobsOk(s, s.procs[q]);
        DeadStaysCold(s, e, v);
      }
    }
  }

  /** Only the completing await takes a version off the queue. */
  lemma OnlyCompletionDequeues(s: System, e: Event, v: Guid)
    requires v in s.db.cleanup && v !in Step(s, e).db.cleanup
    ensures e.Turn? && e.pid in s.procs && Completes(s.procs[e.pid], v)
  {
    if e.Turn? && e.pid in s.procs { AwaitFacts(s, e.pid, e); } else if !e.Turn? { OtherEvents(s, e); }
  }

  /** A dead version that is queued or no longer readable stays one of the two. */
  lemma {:induction false} QueuedOrGoneStays(s: System, es: seq<Event>, v: Guid)
    requires Inv(s) && Cleared(s) && Dead(s, v) && (v in s.db.cleanup || !Live(s, v))
    ensures var s' := Run(s, es); v in s'.db.cleanup || !Live(s', v)
    decreases es
  {
    if es != [] {
      var s' := Step(s, es[0]);
      StepIsSafe(s, es[0]);
      StepKeepsCleared(s, es[0]);
      if v in s.db.cleanup && v !in s'.db.cleanup { OnlyCompletionDequeues(s, es[0], v); }
      if !Live(s, v) { DeadStaysCold(s, es[0], v); }
      QueuedOrGoneStays(s', es[1..], v);
    }
  }

  lemma {:induction false} RunKeepsCleared(s: System, es: seq<Event>)
    requires Inv(s) && Cleared(s)
    ensures Cleared(Run(s, es))
    decreases es
  {
    if es != [] {
      StepIsSafe(s, es[0]);
      StepKeepsCleared(s, es[0]);
      RunKeepsCleared(Step(s, es[0]), es[1..]);
    }
  }

  /**
   * No credential is forgotten while it can still be read: from the moment a
   * version is queued, in every continuation, it is on the queue or its vault
   * object is missing or a tombstone.
   */
  lemma QueuedUntilErased(es: seq<Event>, more: seq<Event>, v: Guid)
    requires v in Run(START, es).db.cleanup
    ensures var s := Run(Run(START, es), more); v in s.db.cleanup || !Live(s, v)
  {
    RunKeepsInv(START, es);
    RunKeepsCleared(START, es);
    QueuedOrGoneStays(Run(START, es), more, v);
  }
}
