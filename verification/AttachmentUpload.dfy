/**
 * Concurrent creation and finalization of uploads. Objects in the bucket are
 * written once under the upload's own key, and only with bytes that hash to the
 * manifest's digest; every other step is a row read or a statement.
 */
module AttachmentUpload {
  import opened Wrappers
  import opened AttachmentUploadStore

  type Pid = nat

  /** A stored object: hash and size of its bytes, and the version the bucket gave it. */
  datatype Blob = Blob(sha: nat, size: nat, version: nat)

  datatype Call =
    | Create(id: Guid, creator: nat, session: nat, key: nat, manifest: Manifest, now: Time)
    | Finish(id: Guid, creator: nat, session: nat)

  /** The live row with the same owner and hash that the finalizer found, with its id. */
  datatype Found = Found(id: Guid, row: Attachment)

  datatype Pc =
    | CreateLookUp | CreateInsert
    | FinishRead | FinishClaim(manifest: Manifest)
    | Head(lease: Guid, manifest: Manifest)
    | PutObject(lease: Guid, manifest: Manifest)
    | HeadAgain(lease: Guid, manifest: Manifest)
    | Recheck(lease: Guid, manifest: Manifest, blob: Blob)
    | FindPrevious(lease: Guid, manifest: Manifest, blob: Blob)
    | HeadPrevious(lease: Guid, manifest: Manifest, blob: Blob, found: Found)
    | RecheckLast(lease: Guid, manifest: Manifest, blob: Blob, previous: Option<Found>)
    | CommitRows(lease: Guid, manifest: Manifest, blob: Blob, previous: Option<Found>, at: Time)
    | Releasing(lease: Guid)
    | Over(committed: bool)

  datatype Proc = Proc(call: Call, pc: Pc)
  {
    function Go(next: Pc): Proc { this.(pc := next) }
  }

  /** One commit that took effect. */
  datatype Commit = Commit(upload: Guid, lease: Guid)

  datatype System = System(db: UploadDb, bucket: map<Guid, Blob>, procs: map<Pid, Proc>, commits: seq<Commit>)

  const START := System(EMPTY, map[], map[], [])

  /** lease, version, row: the identifier, object version or row this step draws or finds, when it needs one. */
  datatype Event =
    | Begin(pid: Pid, call: Call)
    | Turn(pid: Pid, fate: Fate, now: Time, lease: Guid, version: nat, row: Guid, assembled: bool)
    | Throw(pid: Pid)    // authorization, owner or integrity checks that fail by themselves
    | Crash(pid: Pid)
    | Delete(attachment: Guid)
    | Owners(owners: set<nat>)

  predicate Mine(u: Upload, c: Call)
    requires c.Finish?
  {
    u.creator == c.creator && u.session == c.session
  }

  /** requireUpload: the caller's own session, not expired unless committed, not cancelled. */
  predicate Usable(db: UploadDb, c: Call, now: Time)
    requires c.Finish?
  {
    && c.id in db.uploads && Mine(db.uploads[c.id], c) && db.uploads[c.id].state != Cancelled
    && (db.uploads[c.id].state == Committed || db.uploads[c.id].expiresAt > now)
  }

  predicate Matches(blob: Blob, m: Manifest) { blob.sha == m.sha && blob.size == m.size }

  /** The row the previous-attachment query may return. */
  predicate IsPrevious(db: UploadDb, a: Guid, m: Manifest) {
    a in db.attachments && !db.attachments[a].deleted && db.attachments[a].owner == m.owner
      && db.attachments[a].sha == m.sha
  }

  function Put(s: System, pid: Pid, p: Proc): System { s.(procs := s.procs[pid := p]) }

  function AwaitCreate(s: System, c: Call, pc: Pc, e: Event): (System, Pc)
    requires c.Create? && e.Turn?
  {
    match pc
    case CreateLookUp =>
      (s, if e.fate.Acked? && c.manifest.owner in s.db.owners && !KeyTaken(s.db, c.creator, c.session, c.key)
       then CreateInsert else Over(false))
    case CreateInsert =>
      (if e.fate.Effective() then s.(db := InsertUpload(s.db, c.id, c.creator, c.session, c.key, c.manifest, c.now))
       else s, Over(false))
    case _ => (s, pc)
  }

  function AwaitClaim(s: System, c: Call, pc: Pc, e: Event): (System, Pc)
    requires c.Finish? && e.Turn?
  {
    match pc
    case FinishRead =>
      (s, if && e.fate.Acked? && Usable(s.db, c, e.now) && s.db.uploads[c.id].state != Committed
             && s.db.uploads[c.id].manifest.owner in s.db.owners
          then FinishClaim(s.db.uploads[c.id].manifest) else Over(false))
    case FinishClaim(m) =>
      var (db, claimed) := ClaimFinalization(s.db, c.id, c.creator, c.session, e.lease, e.now);
      (if e.fate.Effective() then s.(db := db) else s,
       if e.fate.Acked? && claimed then Head(e.lease, m) else Over(false))
    case _ => (s, pc)
  }

  /** The object's own key: look, write if absent, look again. */
  function AwaitObject(s: System, c: Call, pc: Pc, e: Event): (System, Pc)
    requires c.Finish? && e.Turn?
  {
    match pc
    case Head(lease, m) =>
      (s, if !e.fate.Acked? then Releasing(lease)
          else if c.id !in s.bucket then PutObject(lease, m)
          else if Matches(s.bucket[c.id], m) then Recheck(lease, m, s.bucket[c.id]) else Releasing(lease))
    case PutObject(lease, m) =>
      if c.id in s.bucket then (s, if e.fate.Acked? then HeadAgain(lease, m) else Releasing(lease))
      else if !e.assembled then (s, Releasing(lease))
      else
        var blob := Blob(m.sha, m.size, e.version);
        (if e.fate.Effective() then s.(bucket := s.bucket[c.id := blob]) else s,
         if e.fate.Acked? then Recheck(lease, m, blob) else Releasing(lease))
    case HeadAgain(lease, m) =>
      (s, if e.fate.Acked? && c.id in s.bucket && Matches(s.bucket[c.id], m) then Recheck(lease, m, s.bucket[c.id])
       else Releasing(lease))
    case _ => (s, pc)
  }

  predicate StillMine(db: UploadDb, c: Call, m: Manifest, lease: Guid, now: Time)
    requires c.Finish?
  {
    && m.owner in db.owners && Usable(db, c, now) && db.uploads[c.id].state == Finalizing
    && db.uploads[c.id].leaseOwner == Some(lease)
    && db.uploads[c.id].leaseExpiresAt.Some? && db.uploads[c.id].leaseExpiresAt.value > now
  }

  /** The previous attachment with these bytes, and the two checks of the lease around it. */
  function AwaitPrevious(s: System, c: Call, pc: Pc, e: Event): (System, Pc)
    requires c.Finish? && e.Turn?
  {
    match pc
    case Recheck(lease, m, blob) =>
      (s, if e.fate.Acked? && StillMine(s.db, c, m, lease, e.now) then FindPrevious(lease, m, blob)
       else Releasing(lease))
    case FindPrevious(lease, m, blob) =>
      (s, if !e.fate.Acked? then Releasing(lease)
          else if IsPrevious(s.db, e.row, m) then HeadPrevious(lease, m, blob, Found(e.row, s.db.attachments[e.row]))
          else if LiveDuplicate(s.db, m) then pc    // the event names the wrong row
          else RecheckLast(lease, m, blob, None))
    case HeadPrevious(lease, m, blob, found) =>
      var at := found.row.storage;
      (s, if && e.fate.Acked? && at in s.bucket
             && s.bucket[at] == Blob(found.row.sha, found.row.size, found.row.version)
          then RecheckLast(lease, m, blob, Some(found)) else Releasing(lease))
    case RecheckLast(lease, m, blob, previous) =>
      (s, if e.fate.Acked? && StillMine(s.db, c, m, lease, e.now) then CommitRows(lease, m, blob, previous, e.now)
       else Releasing(lease))
    case _ => (s, pc)
  }

  /** The commit batch for the attachment the finalizer decided on. */
  function CommitNaming(
    s: System, id: Guid, lease: Guid, blob: Blob, previous: Option<Found>, at: Time): (System, bool) {
    var winner := if previous.Some? then previous.value.id else id;
    var storage := if previous.Some? then previous.value.row.storage else id;
    var version := if previous.Some? then previous.value.row.version else blob.version;
    var (db, done) := CommitBatch(s.db, id, lease, blob.version, winner, storage, version, at);
    (s.(db := db, commits := if done then s.commits + [Commit(id, lease)] else s.commits), done)
  }

  function AwaitCommit(s: System, c: Call, pc: Pc, e: Event): (System, Pc)
    requires c.Finish? && e.Turn?
  {
    match pc
    case CommitRows(lease, m, blob, previous, at) =>
      var (s', done) := CommitNaming(s, c.id, lease, blob, previous, at);
      (if e.fate.Effective() then s' else s,
       if e.fate.Acked? && done then Over(true) else Releasing(lease))
    case Releasing(lease) =>
      (if e.fate.Effective() then s.(db := ReleaseFinalization(s.db, c.id, lease)) else s, Over(false))
    case _ => (s, pc)
  }

  predicate AtObject(pc: Pc) { pc.Head? || pc.PutObject? || pc.HeadAgain? }
  predicate AtPrevious(pc: Pc) { pc.Recheck? || pc.FindPrevious? || pc.HeadPrevious? || pc.RecheckLast? }
  predicate AtCommit(pc: Pc) { pc.CommitRows? || pc.Releasing? }

  function Await(s: System, p: Proc, e: Event): (System, Pc)
    requires e.Turn?
  {
    if p.call.Create? then AwaitCreate(s, p.call, p.pc, e)
    else if AtObject(p.pc) then AwaitObject(s, p.call, p.pc, e)
    else if AtPrevious(p.pc) then AwaitPrevious(s, p.call, p.pc, e)
    else if AtCommit(p.pc) then AwaitCommit(s, p.call, p.pc, e)
    else AwaitClaim(s, p.call, p.pc, e)
  }

  function Thrown(pc: Pc): Pc {
    if AtObject(pc) || AtPrevious(pc) || pc.CommitRows? then Releasing(pc.lease) else Over(false)
  }

  function Step(s: System, e: Event): System {
    match e
    case Begin(pid, call) =>
      if pid in s.procs then s else Put(s, pid, Proc(call, if call.Create? then CreateLookUp else FinishRead))
    case Turn(pid, _, _, _, _, _, _) =>
      if pid !in s.procs then s else
      var (s', pc) := Await(s, s.procs[pid], e);
      Put(s', pid, s.procs[pid].Go(pc))
    case Throw(pid) =>
      if pid in s.procs && !s.procs[pid].pc.Over? then Put(s, pid, s.procs[pid].Go(Thrown(s.procs[pid].pc))) else s
    case Crash(pid) => if pid in s.procs && !s.procs[pid].pc.Over? then Put(s, pid, s.procs[pid].Go(Over(false))) else s
    case Delete(a) => s.(db := DeleteAttachment(s.db, a))
    case Owners(owners) => s.(db := s.db.(owners := owners))
  }

  function Run(s: System, es: seq<Event>): System
    decreases es
  {
    if es == [] then s else Run(Step(s, es[0]), es[1..])
  }

  // ---- The invariant -------------------------------------------------------

  predicate Stored(s: System, at: Guid, blob: Blob) { at in s.bucket && s.bucket[at] == blob }

  /** The row the finalizer found is still there, at most deleted since. */
  predicate SawRow(s: System, m: Manifest, found: Found) {
    && found.row.sha == m.sha && found.row.owner == m.owner
    && found.id in s.db.attachments && s.db.attachments[found.id].Same(found.row)
  }

  /** The finalizer's own object is there, and so are the bytes of the attachment it found. */
  predicate SawObjects(s: System, id: Guid, m: Manifest, blob: Blob, previous: Option<Found>) {
    && Stored(s, id, blob) && Matches(blob, m)
    && (previous.Some? ==>
          && SawRow(s, m, previous.value)
          && Stored(s, previous.value.row.storage,
                    Blob(previous.value.row.sha, previous.value.row.size, previous.value.row.version)))
  }

  predicate ProcOk(s: System, p: Proc) {
    p.call.Finish? ==>
      && (AtObject(p.pc) || AtPrevious(p.pc) || p.pc.CommitRows? || p.pc.FinishClaim? ==>
            p.call.id in s.db.uploads && s.db.uploads[p.call.id].manifest == p.pc.manifest)
      && (p.pc.Recheck? || p.pc.FindPrevious? ==> SawObjects(s, p.call.id, p.pc.manifest, p.pc.blob, None))
      && (p.pc.HeadPrevious? ==>
            SawObjects(s, p.call.id, p.pc.manifest, p.pc.blob, None) && SawRow(s, p.pc.manifest, p.pc.found))
      && (p.pc.RecheckLast? || p.pc.CommitRows? ==> SawObjects(s, p.call.id, p.pc.manifest, p.pc.blob, p.pc.previous))
  }

  /** A committed upload names an attachment of its own owner and hash, whose stored bytes have that hash. */
  predicate Backed(s: System, u: Upload) {
    && u.attachment.Some? && u.attachment.value in s.db.attachments
    && var a := s.db.attachments[u.attachment.value];
       && a.owner == u.manifest.owner && a.sha == u.manifest.sha
       && a.storage in s.bucket && s.bucket[a.storage].sha == u.manifest.sha && s.bucket[a.storage].version == a.version
  }

  ghost predicate CommitsOk(s: System) {
    && (forall k | 0 <= k < |s.commits| ::
          s.commits[k].upload in s.db.uploads && s.db.uploads[s.commits[k].upload].state == Committed)
    && (forall j, k | 0 <= j < k < |s.commits| :: s.commits[j].upload != s.commits[k].upload)
  }

  /** An attachment row and its object carry the name of the upload that wrote them. */
  predicate NamedAfterUploads(db: UploadDb) { forall a | a in db.attachments :: db.attachments[a].storage == a }

  ghost predicate Inv(s: System) {
    && QuotaOk(s.db) && CommitsOk(s) && NamedAfterUploads(s.db)
    && (forall id | id in s.db.uploads && s.db.uploads[id].state == Committed :: Backed(s, s.db.uploads[id]))
    && (forall pid | pid in s.procs :: ProcOk(s, s.procs[pid]))
  }

  /** How rows and objects may change: committed uploads are frozen, attachments are at most deleted, objects stay. */
  ghost predicate Extends(s: System, s': System) {
    && (forall id | id in s.db.uploads ::
          && id in s'.db.uploads && Winds(s.db.uploads[id], s'.db.uploads[id])
          && (s.db.uploads[id].state == Committed ==> s'.db.uploads[id] == s.db.uploads[id]))
    && (forall a | a in s.db.attachments :: a in s'.db.attachments && s'.db.attachments[a].Same(s.db.attachments[a]))
    && (forall at | at in s.bucket :: at in s'.bucket && s'.bucket[at] == s.bucket[at])
  }

  lemma ProcStaysOk(s: System, s': System, p: Proc)
    requires Extends(s, s') && ProcOk(s, p)
    ensures ProcOk(s', p)
  {}

  /** Only the process moves. */
  lemma ProcessMoves(s: System, pid: Pid, p: Proc)
    requires Inv(s) && ProcOk(s, p)
    ensures Inv(Put(s, pid, p)) && Extends(s, Put(s, pid, p))
  {}

  /** Rows and objects move; newly committed uploads must be shown backed. */
  lemma RowsMove(s: System, s': System)
    requires Inv(s) && Extends(s, s') && s'.procs == s.procs && QuotaOk(s'.db) && CommitsOk(s')
    requires NamedAfterUploads(s'.db)
    requires forall id | id in s'.db.uploads && s'.db.uploads[id].state == Committed ::
      (id in s.db.uploads && s.db.uploads[id].state == Committed) || Backed(s', s'.db.uploads[id])
    ensures Inv(s')
  {
    forall id | id in s'.db.uploads && s'.db.uploads[id].state == Committed ensures Backed(s', s'.db.uploads[id]) {
      if id in s.db.uploads && s.db.uploads[id].state == Committed { assert Backed(s, s.db.uploads[id]); }
    }
    forall q | q in s'.procs ensures ProcOk(s', s'.procs[q]) { ProcStaysOk(s, s', s.procs[q]); }
  }

  /** An insert that takes effect only adds a fresh upload. */
  lemma InsertExtends(s: System, c: Call)
    requires CommitsOk(s) && c.Create?
    ensures var s' := s.(db := InsertUpload(s.db, c.id, c.creator, c.session, c.key, c.manifest, c.now));
      && Extends(s, s') && CommitsOk(s') && s'.db.attachments == s.db.attachments
      && forall id | id in s'.db.uploads && s'.db.uploads[id].state == Committed :: id in s.db.uploads
  {}

  lemma CreateTurn(s: System, c: Call, pc: Pc, e: Event)
    requires Inv(s) && c.Create? && e.Turn?
    ensures var (s', _) := AwaitCreate(s, c, pc, e); Inv(s') && Extends(s, s') && s'.procs == s.procs
  {
    if pc.CreateInsert? && e.fate.Effective() {
      var s' := s.(db := InsertUpload(s.db, c.id, c.creator, c.session, c.key, c.manifest, c.now));
      InsertKeepsQuota(s.db, c.id, c.creator, c.session, c.key, c.manifest, c.now);
      InsertExtends(s, c);
      RowsMove(s, s');
    }
  }

  /** One upload row moves; it is not committed before or after. */
  lemma UploadMoves(s: System, id: Guid, u: Upload)
    requires Inv(s) && id in s.db.uploads && Winds(s.db.uploads[id], u)
    requires s.db.uploads[id].state != Committed && u.state != Committed
    ensures var s' := s.(db := s.db.WithUpload(id, u)); Inv(s') && Extends(s, s')
  {
    UpdateKeepsQuota(s.db, id, u);
    RowsMove(s, s.(db := s.db.WithUpload(id, u)));
  }

  lemma ClaimTurn(s: System, c: Call, pc: Pc, e: Event)
    requires Inv(s) && c.Finish? && e.Turn? && (pc.FinishRead? || pc.FinishClaim?)
    ensures var (s', _) := AwaitClaim(s, c, pc, e); Inv(s') && Extends(s, s') && s'.procs == s.procs
  {
    var (db, claimed) := ClaimFinalization(s.db, c.id, c.creator, c.session, e.lease, e.now);
    if pc.FinishClaim? && e.fate.Effective() && claimed {
      UploadMoves(s, c.id, db.uploads[c.id]);
      assert AwaitClaim(s, c, pc, e).0 == s.(db := s.db.WithUpload(c.id, db.uploads[c.id]));
    }
  }

  lemma ClaimStaysOk(s: System, c: Call, pc: Pc, e: Event)
    requires c.Finish? && e.Turn? && ProcOk(s, Proc(c, pc)) && (pc.FinishRead? || pc.FinishClaim?)
    ensures var (s', pc') := AwaitClaim(s, c, pc, e); ProcOk(s', Proc(c, pc'))
  {}

  lemma ObjectTurn(s: System, c: Call, pc: Pc, e: Event)
    requires Inv(s) && c.Finish? && e.Turn? && ProcOk(s, Proc(c, pc)) && AtObject(pc)
    ensures var (s', pc') := AwaitObject(s, c, pc, e);
      Inv(s') && Extends(s, s') && s'.procs == s.procs && ProcOk(s', Proc(c, pc'))
  {
    var (s', pc') := AwaitObject(s, c, pc, e);
    if s' != s {
      QuotaIgnoresTheRest(s.db, s'.db);
      RowsMove(s, s');
    }
  }

  lemma PreviousTurn(s: System, c: Call, pc: Pc, e: Event)
    requires c.Finish? && e.Turn? && ProcOk(s, Proc(c, pc)) && AtPrevious(pc)
    ensures var (s', pc') := AwaitPrevious(s, c, pc, e); s' == s && ProcOk(s, Proc(c, pc'))
  {}

  /** The first statement adds at most one row, under an unused name. */
  lemma InsertionKeepsInv(s: System, id: Guid, lease: Guid, version: nat, now: Time)
    requires Inv(s) && InsertAttachment(s.db, id, lease, version, now).Some?
    ensures
      var s' := s.(db := InsertAttachment(s.db, id, lease, version, now).value);
      Inv(s') && Extends(s, s') && s'.db.uploads == s.db.uploads
  {
    var s' := s.(db := InsertAttachment(s.db, id, lease, version, now).value);
    QuotaIgnoresTheRest(s.db, s'.db);
    RowsMove(s, s');
  }

  /** What the second statement commits is backed by stored bytes. */
  lemma CommitmentExtends(
    s: System, id: Guid, lease: Guid, winner: Guid, storage: Guid, version: nat, now: Time)
    requires CommitsOk(s) && CommitUpload(s.db, id, lease, winner, storage, version, now).1
    ensures
      var s' := s.(db := CommitUpload(s.db, id, lease, winner, storage, version, now).0,
                   commits := s.commits + [Commit(id, lease)]);
      Extends(s, s') && CommitsOk(s')
  {}

  lemma CommitmentKeepsInv(s: System, id: Guid, lease: Guid, winner: Guid, storage: Guid, version: nat, now: Time)
    requires Inv(s) && CommitUpload(s.db, id, lease, winner, storage, version, now).1
    requires storage in s.bucket && s.bucket[storage].sha == s.db.uploads[id].manifest.sha
    requires s.bucket[storage].version == version
    ensures
      var s' := s.(db := CommitUpload(s.db, id, lease, winner, storage, version, now).0,
                   commits := s.commits + [Commit(id, lease)]);
      Inv(s') && Extends(s, s')
  {
    var s' := s.(db := CommitUpload(s.db, id, lease, winner, storage, version, now).0,
                 commits := s.commits + [Commit(id, lease)]);
    UpdateKeepsQuota(s.db, id, s'.db.uploads[id]);
    CommitmentExtends(s, id, lease, winner, storage, version, now);
    assert Backed(s', s'.db.uploads[id]);
    RowsMove(s, s');
  }

  lemma Chain(a: System, b: System, c: System)
    requires Extends(a, b) && Extends(b, c)
    ensures Extends(a, c)
  {}

  /** The whole batch, with the object the finalizer saw still in the bucket. */
  lemma BatchKeepsInv(
    s: System, id: Guid, lease: Guid, objectVersion: nat, winner: Guid, storage: Guid, version: nat, now: Time)
    requires Inv(s) && id in s.db.uploads
    requires storage in s.bucket && s.bucket[storage].sha == s.db.uploads[id].manifest.sha
    requires s.bucket[storage].version == version
    ensures
      var (db, done) := CommitBatch(s.db, id, lease, objectVersion, winner, storage, version, now);
      var s' := s.(db := db, commits := if done then s.commits + [Commit(id, lease)] else s.commits);
      Inv(s') && Extends(s, s')
  {
    var inserted := InsertAttachment(s.db, id, lease, objectVersion, now);
    if inserted.Some? {
      var s1 := s.(db := inserted.value);
      InsertionKeepsInv(s, id, lease, objectVersion, now);
      var (db, done) := CommitUpload(s1.db, id, lease, winner, storage, version, now);
      if done {
        CommitmentKeepsInv(s1, id, lease, winner, storage, version, now);
        Chain(s, s1, s1.(db := db, commits := s1.commits + [Commit(id, lease)]));
      }
    }
  }

  lemma NamingKeepsInv(s: System, id: Guid, lease: Guid, blob: Blob, previous: Option<Found>, at: Time)
    requires Inv(s) && id in s.db.uploads && SawObjects(s, id, s.db.uploads[id].manifest, blob, previous)
    ensures var s' := CommitNaming(s, id, lease, blob, previous, at).0; Inv(s') && Extends(s, s') && s'.procs == s.procs
  {
    if previous.Some? {
      BatchKeepsInv(s, id, lease, blob.version, previous.value.id, previous.value.row.storage,
                    previous.value.row.version, at);
    } else {
      BatchKeepsInv(s, id, lease, blob.version, id, id, blob.version, at);
    }
  }

  lemma CommitTurn(s: System, c: Call, pc: Pc, e: Event)
    requires Inv(s) && c.Finish? && e.Turn? && ProcOk(s, Proc(c, pc)) && pc.CommitRows?
    ensures var (s', _) := AwaitCommit(s, c, pc, e); Inv(s') && Extends(s, s') && s'.procs == s.procs
  {
    NamingKeepsInv(s, c.id, pc.lease, pc.blob, pc.previous, pc.at);
  }

  lemma ReleaseTurn(s: System, c: Call, pc: Pc, e: Event)
    requires Inv(s) && c.Finish? && e.Turn? && pc.Releasing?
    ensures var (s', pc') := AwaitCommit(s, c, pc, e);
      Inv(s') && Extends(s, s') && s'.procs == s.procs && ProcOk(s', Proc(c, pc'))
  {
    if c.id in s.db.uploads && s.db.uploads[c.id].state == Finalizing
       && s.db.uploads[c.id].leaseOwner == Some(pc.lease) {
      UploadMoves(s, c.id, ReleaseFinalization(s.db, c.id, pc.lease).uploads[c.id]);
    }
  }

  lemma AwaitKeepsInv(s: System, p: Proc, e: Event)
    requires Inv(s) && e.Turn? && ProcOk(s, p)
    ensures var (s', pc') := Await(s, p, e); Inv(s') && Extends(s, s') && s'.procs == s.procs && ProcOk(s', p.Go(pc'))
  {
    if p.call.Create? { CreateTurn(s, p.call, p.pc, e); }
    else if AtObject(p.pc) { ObjectTurn(s, p.call, p.pc, e); }
    else if AtPrevious(p.pc) { PreviousTurn(s, p.call, p.pc, e); }
    else if p.pc.CommitRows? { CommitTurn(s, p.call, p.pc, e); }
    else if p.pc.Releasing? { ReleaseTurn(s, p.call, p.pc, e); }
    else if p.pc.FinishRead? || p.pc.FinishClaim? { ClaimTurn(s, p.call, p.pc, e); ClaimStaysOk(s, p.call, p.pc, e); }
  }

  lemma SharedStepKeepsInv(s: System, e: Event)
    requires Inv(s) && (e.Delete? || e.Owners?)
    ensures Inv(Step(s, e)) && Extends(s, Step(s, e))
  {
    QuotaIgnoresTheRest(s.db, Step(s, e).db);
    RowsMove(s, Step(s, e));
  }

  lemma StepKeepsInv(s: System, e: Event)
    requires Inv(s)
    ensures Inv(Step(s, e)) && Extends(s, Step(s, e))
  {
    match e
    case Begin(pid, call) => if pid !in s.procs { ProcessMoves(s, pid, Step(s, e).procs[pid]); }
    case Turn(pid, _, _, _, _, _, _) =>
      if pid in s.procs {
        var p := s.procs[pid];
        var (s', pc) := Await(s, p, e);
        AwaitKeepsInv(s, p, e);
        ProcessMoves(s', pid, p.Go(pc));
        Chain(s, s', Step(s, e));
      }
    case Throw(pid) =>
      if pid in s.procs && !s.procs[pid].pc.Over? { ProcessMoves(s, pid, s.procs[pid].Go(Thrown(s.procs[pid].pc))); }
    case Crash(pid) =>
      if pid in s.procs && !s.procs[pid].pc.Over? { ProcessMoves(s, pid, s.procs[pid].Go(Over(false))); }
    case Delete(_) => SharedStepKeepsInv(s, e);
    case Owners(_) => SharedStepKeepsInv(s, e);
  }

  lemma StartIsOk()
    ensures Inv(START)
  {}

  lemma {:induction false} RunKeepsInv(s: System, es: seq<Event>)
    requires Inv(s)
    ensures Inv(Run(s, es)) && Extends(s, Run(s, es))
    decreases es
  {
    if es != [] {
      StepKeepsInv(s, es[0]);
      RunKeepsInv(Step(s, es[0]), es[1..]);
      Chain(s, Step(s, es[0]), Run(s, es));
    }
  }

  // ---- Main results --------------------------------------------------------

  /**
   * Every closed 24-hour window holds at most 40 uploads and 100 MiB of one
   * creator, whatever the clocks of the callers say.
   */
  lemma DailyQuotaHolds(es: seq<Event>, creator: nat, from: Time)
    ensures
      var db := Run(START, es).db;
      && Count(db, db.order, Within(creator, from, from + DAY)) <= 40
      && Bytes(db, db.order, Within(creator, from, from + DAY)) <= 104857600
  {
    StartIsOk();
    RunKeepsInv(START, es);
    assert WindowOk(Run(START, es).db, creator, from);
  }

  /** At any time no earlier than its latest creation, a creator has at most three unexpired active uploads. */
  lemma ActiveQuotaHolds(es: seq<Event>, creator: nat, t: Time)
    requires CreatedBy(Run(START, es).db, creator, t)
    ensures var db := Run(START, es).db; Count(db, db.order, ActiveAt(creator, t)) <= 3
  {
    StartIsOk();
    RunKeepsInv(START, es);
  }

  predicate SurvivesAlone(d: UploadDb, d': UploadDb, id: Guid) { Inserts(d, d', id) && !NewlyCommitted(d, d', id) }

  /** The finalizer still may finish and had found a row, but no live row with these bytes is left. */
  predicate FoundRowIsGone(db: UploadDb, id: Guid, pc: Pc)
    requires pc.CommitRows? && id in db.uploads
  {
    && id !in db.attachments && MayFinalize(db, id, pc.lease, pc.at)
    && pc.previous.Some? && !LiveDuplicate(db, db.uploads[id].manifest)
  }

  /**
   * Over every run: when a finalizer's batch takes effect, its row survives
   * alone exactly when it had found a previous row and, at the batch, no live
   * row with these bytes is left. A finalizer that found none inserts exactly
   * when it commits.
   */
  lemma RowSurvivesAloneIff(es: seq<Event>, pid: Pid, e: Event)
    requires
      var s := Run(START, es);
      pid in s.procs && s.procs[pid].call.Finish? && s.procs[pid].pc.CommitRows?
    requires e.Turn? && e.pid == pid && e.fate.Effective()
    ensures
      var (s, s') := (Run(START, es), Step(Run(START, es), e));
      var (id, pc) := (s.procs[pid].call.id, s.procs[pid].pc);
      && id in s.db.uploads && id in s'.db.uploads
      && (SurvivesAlone(s.db, s'.db, id) <==> FoundRowIsGone(s.db, id, pc))
      && (pc.previous.None? && id !in s.db.attachments ==>
            (id in s'.db.attachments <==> NewlyCommitted(s.db, s'.db, id)))
  {
    StartIsOk();
    RunKeepsInv(START, es);
    BatchSurvivesAloneIff(Run(START, es), pid, e);
  }

  lemma BatchSurvivesAloneIff(s: System, pid: Pid, e: Event)
    requires NamedAfterUploads(s.db) && pid in s.procs && ProcOk(s, s.procs[pid])
    requires s.procs[pid].call.Finish? && s.procs[pid].pc.CommitRows? && e.Turn? && e.pid == pid && e.fate.Effective()
    ensures
      var s' := Step(s, e);
      var (id, pc) := (s.procs[pid].call.id, s.procs[pid].pc);
      && id in s.db.uploads && id in s'.db.uploads
      && (SurvivesAlone(s.db, s'.db, id) <==> FoundRowIsGone(s.db, id, pc))
      && (pc.previous.None? && id !in s.db.attachments ==>
            (id in s'.db.attachments <==> NewlyCommitted(s.db, s'.db, id)))
  {
    var (id, pc) := (s.procs[pid].call.id, s.procs[pid].pc);
    var winner := if pc.previous.Some? then pc.previous.value.id else id;
    var storage := if pc.previous.Some? then pc.previous.value.row.storage else id;
    var version := if pc.previous.Some? then pc.previous.value.row.version else pc.blob.version;
    SurvivesAloneIff(s.db, id, pc.lease, pc.blob.version, winner, storage, version, pc.at);
    var (after, committed) := CommitBatch(s.db, id, pc.lease, pc.blob.version, winner, storage, version, pc.at);
    assert Step(s, e).db == after;
    assert committed <==> NewlyCommitted(s.db, after, id);
  }

  /** At most one lease ever commits an upload, and a committed upload never changes again. */
  lemma OneLeaseCommits(es: seq<Event>, more: seq<Event>, id: Guid)
    ensures var log := Run(START, es).commits; forall j, k | 0 <= j < k < |log| :: log[j].upload != log[k].upload
    ensures id in Run(START, es).db.uploads && Run(START, es).db.uploads[id].state == Committed ==>
      id in Run(Run(START, es), more).db.uploads
        && Run(Run(START, es), more).db.uploads[id] == Run(START, es).db.uploads[id]
  {
    StartIsOk();
    RunKeepsInv(START, es);
    RunKeepsInv(Run(START, es), more);
  }

  /** In every run a committed upload names an attachment of its owner and hash whose stored bytes have that hash. */
  lemma CommittedUploadsAreBacked(es: seq<Event>, id: Guid)
    requires id in Run(START, es).db.uploads && Run(START, es).db.uploads[id].state == Committed
    ensures Backed(Run(START, es), Run(START, es).db.uploads[id])
  {
    StartIsOk();
    RunKeepsInv(START, es);
  }

  /** ... and when it is committed, that attachment is live. */
  lemma CommitNamesLiveAttachment(es: seq<Event>, e: Event, id: Guid)
    ensures
      var (s, s') := (Run(START, es), Step(Run(START, es), e));
      NewlyCommitted(s.db, s'.db, id) ==> Backed(s', s'.db.uploads[id]) && NamesLive(s'.db, id)
  {
    var s := Run(START, es);
    StartIsOk();
    RunKeepsInv(START, es);
    StepKeepsInv(s, e);
    if NewlyCommitted(s.db, Step(s, e).db, id) { CommitStepNames(s, e, id); }
  }

  predicate NewlyCommitted(d: UploadDb, d': UploadDb, id: Guid) {
    && id in d.uploads && d.uploads[id].state != Committed
    && id in d'.uploads && d'.uploads[id].state == Committed
  }

  /** Only the commit batch commits, and it names a live row. */
  lemma BatchNames(
    db: UploadDb, id: Guid, lease: Guid, objectVersion: nat, winner: Guid, storage: Guid, version: nat, now: Time,
    u: Guid)
    requires u in db.uploads && db.uploads[u].state != Committed
    ensures
      var (d, _) := CommitBatch(db, id, lease, objectVersion, winner, storage, version, now);
      u in d.uploads && (d.uploads[u].state == Committed ==> NamesLive(d, u))
  {}

  predicate NamesLive(db: UploadDb, u: Guid) {
    && u in db.uploads && db.uploads[u].attachment.Some? && db.uploads[u].attachment.value in db.attachments
    && !db.attachments[db.uploads[u].attachment.value].deleted
  }

  lemma OtherTurnsDoNotCommit(s: System, p: Proc, e: Event, u: Guid)
    requires u in s.db.uploads && s.db.uploads[u].state != Committed && e.Turn? && !p.pc.CommitRows?
    ensures u in Await(s, p, e).0.db.uploads && Await(s, p, e).0.db.uploads[u].state != Committed
  {}

  lemma CommitStepNames(s: System, e: Event, id: Guid)
    requires NewlyCommitted(s.db, Step(s, e).db, id)
    ensures NamesLive(Step(s, e).db, id)
  {
    if e.Turn? && e.pid in s.procs {
      var p := s.procs[e.pid];
      if p.pc.CommitRows? {
        var previous := p.pc.previous;
        BatchNames(s.db, p.call.id, p.pc.lease, p.pc.blob.version,
                   if previous.Some? then previous.value.id else p.call.id,
          if previous.Some? then previous.value.row.storage else p.call.id,
          if previous.Some? then previous.value.row.version else p.pc.blob.version, p.pc.at, id);
      } else {
        OtherTurnsDoNotCommit(s, p, e, id);
      }
    }
  }
}
