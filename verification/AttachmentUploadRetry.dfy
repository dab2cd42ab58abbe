/**
 * What becomes of an attachment row that was inserted although its upload was
 * not committed: a retry commits the upload with it, unless it was deleted.
 */
module AttachmentUploadRetry {
  import opened Wrappers
  import opened AttachmentUploadStore
  import opened AttachmentUpload

  /** The upload has its own row and object; the row may have been deleted since. */
  predicate RowStays(s: System, id: Guid) {
    && id in s.db.uploads && id in s.db.attachments && id in s.bucket
    && var (m, row) := (s.db.uploads[id].manifest, s.db.attachments[id]);
       && row.owner == m.owner && row.sha == m.sha && row.storage == id
       && s.bucket[id] == Blob(row.sha, row.size, row.version) && Matches(s.bucket[id], m)
  }

  predicate Deleted(s: System, a: Guid) { a in s.db.attachments && s.db.attachments[a].deleted }

  /** A row that survived alone is live, has its object, and its upload is still to be finished. */
  lemma SurvivorHasItsObject(es: seq<Event>, pid: Pid, e: Event)
    requires
      var s := Run(START, es);
      pid in s.procs && s.procs[pid].call.Finish? && s.procs[pid].pc.CommitRows?
    requires e.Turn? && e.pid == pid && e.fate.Effective()
    requires SurvivesAlone(Run(START, es).db, Step(Run(START, es), e).db, Run(START, es).procs[pid].call.id)
    ensures
      var s' := Step(Run(START, es), e);
      var id := Run(START, es).procs[pid].call.id;
      RowStays(s', id) && !Deleted(s', id) && s'.db.uploads[id].state == Finalizing
  {
    StartIsOk();
    RunKeepsInv(START, es);
    var s := Run(START, es);
    BatchSurvivesAloneIff(s, pid, e);
    assert ProcOk(s, s.procs[pid]);
  }

  // ---- Over every run --------------------------------------------------------

  lemma OtherTurnsKeepRows(s: System, p: Proc, e: Event)
    requires e.Turn? && !p.pc.CommitRows?
    ensures Await(s, p, e).0.db.attachments == s.db.attachments
  {}

  lemma BatchKeepsRows(
    db: UploadDb, id: Guid, lease: Guid, objectVersion: nat, winner: Guid, storage: Guid, version: nat, now: Time)
    ensures
      var d := CommitBatch(db, id, lease, objectVersion, winner, storage, version, now).0;
      forall a | a in db.attachments :: a in d.attachments && d.attachments[a] == db.attachments[a]
  {}

  lemma CommitTurnKeepsRows(s: System, p: Proc, e: Event)
    requires e.Turn? && p.call.Finish? && p.pc.CommitRows?
    ensures
      var db := Await(s, p, e).0.db;
      forall a | a in s.db.attachments :: a in db.attachments && db.attachments[a] == s.db.attachments[a]
  {
    var (id, pc) := (p.call.id, p.pc);
    var winner := if pc.previous.Some? then pc.previous.value.id else id;
    var storage := if pc.previous.Some? then pc.previous.value.row.storage else id;
    var version := if pc.previous.Some? then pc.previous.value.row.version else pc.blob.version;
    BatchKeepsRows(s.db, id, pc.lease, pc.blob.version, winner, storage, version, pc.at);
  }

  lemma StepKeepsDeleted(s: System, e: Event, a: Guid)
    requires Deleted(s, a)
    ensures Deleted(Step(s, e), a)
  {
    if e.Turn? && e.pid in s.procs {
      var p := s.procs[e.pid];
      if p.pc.CommitRows? && p.call.Finish? { CommitTurnKeepsRows(s, p, e); }
      else if !p.pc.CommitRows? { OtherTurnsKeepRows(s, p, e); }
    }
  }

  lemma StepKeepsRow(s: System, e: Event, id: Guid)
    requires Inv(s) && RowStays(s, id)
    ensures RowStays(Step(s, e), id)
  {
    StepKeepsInv(s, e);
  }

  /** The row stays with its object in every continuation, and once deleted it stays deleted. */
  lemma {:induction false} RunKeepsRow(s: System, es: seq<Event>, id: Guid)
    requires Inv(s) && RowStays(s, id)
    ensures Inv(Run(s, es)) && RowStays(Run(s, es), id) && (Deleted(s, id) ==> Deleted(Run(s, es), id))
    decreases es
  {
    if es != [] {
      StepKeepsInv(s, es[0]);
      StepKeepsRow(s, es[0], id);
      if Deleted(s, id) { StepKeepsDeleted(s, es[0], id); }
      RunKeepsRow(Step(s, es[0]), es[1..], id);
    }
  }

  // ---- A retry after the row was deleted -------------------------------------

  /** With the upload's row there, the batch throws exactly when it may finish and nothing live has its bytes. */
  lemma PresentRowThrowsIff(db: UploadDb, id: Guid, lease: Guid, version: nat, now: Time)
    requires id in db.attachments
    ensures InsertAttachment(db, id, lease, version, now).None? <==>
      MayFinalize(db, id, lease, now) && !LiveDuplicate(db, db.uploads[id].manifest)
  {}

  predicate AnotherHasItsBytes(db: UploadDb, id: Guid)
    requires id in db.uploads
  {
    exists a | a in db.attachments && a != id ::
      !db.attachments[a].deleted && db.attachments[a].owner == db.uploads[id].manifest.owner
        && db.attachments[a].sha == db.uploads[id].manifest.sha
  }

  lemma DeletedRowBlocksTurn(s: System, pid: Pid, e: Event)
    requires pid in s.procs && s.procs[pid].call.Finish? && s.procs[pid].pc.CommitRows?
    requires RowStays(s, s.procs[pid].call.id) && Deleted(s, s.procs[pid].call.id) && e.Turn? && e.pid == pid
    ensures AnotherHasItsBytes(s.db, s.procs[pid].call.id) || Step(s, e).db == s.db
  {
    var p := s.procs[pid];
    PresentRowThrowsIff(s.db, p.call.id, p.pc.lease, p.pc.blob.version, p.pc.at);
  }

  /**
   * Over every run: once the row of an unfinished upload is deleted, every later
   * batch of that upload changes nothing, unless another live row has the same
   * owner and bytes.
   */
  lemma DeletedRowBlocksRetries(es: seq<Event>, more: seq<Event>, pid: Pid, e: Event)
    requires
      var s := Run(Run(START, es), more);
      pid in s.procs && s.procs[pid].call.Finish? && s.procs[pid].pc.CommitRows?
    requires
      var id := Run(Run(START, es), more).procs[pid].call.id;
      RowStays(Run(START, es), id) && Deleted(Run(START, es), id)
    requires e.Turn? && e.pid == pid
    ensures
      var s := Run(Run(START, es), more);
      var id := s.procs[pid].call.id;
      && id in s.db.uploads
      && (AnotherHasItsBytes(s.db, id) || Step(s, e).db == s.db)
  {
    StartIsOk();
    RunKeepsInv(START, es);
    var s := Run(Run(START, es), more);
    var p := s.procs[pid];
    RunKeepsRow(Run(START, es), more, p.call.id);
    DeletedRowBlocksTurn(s, pid, e);
  }

  // ---- An undisturbed retry while the row is live ----------------------------

  /** The turns of one process: nothing fails, the clock stays in a window, the row found is the upload's own. */
  predicate Undisturbed(es: seq<Event>, pid: Pid, id: Guid, from: Time, to: Time) {
    forall e | e in es ::
      e.Turn? && e.pid == pid && e.fate == Acked && e.row == id && from <= e.now < to
  }

  /** The upload may be claimed by this call, and nothing runs out before the end of the window. */
  predicate MayRetry(s: System, c: Call, from: Time, to: Time)
    requires c.Finish?
  {
    && RowStays(s, c.id) && !Deleted(s, c.id)
    && var u := s.db.uploads[c.id];
       && Mine(u, c) && u.manifest.owner in s.db.owners && to <= u.expiresAt && to <= from + FINALIZE_LEASE
       && (u.state == Uploading ||
           (u.state == Finalizing && u.leaseExpiresAt.Some? && u.leaseExpiresAt.value <= from))
  }

  /** The upload is claimed by this lease until after the window. */
  predicate Claimed(s: System, c: Call, lease: Guid, to: Time)
    requires c.Finish?
  {
    && RowStays(s, c.id) && !Deleted(s, c.id)
    && var u := s.db.uploads[c.id];
       && Mine(u, c) && u.manifest.owner in s.db.owners && to <= u.expiresAt && u.state == Finalizing
       && u.leaseOwner == Some(lease) && u.leaseExpiresAt.Some? && to <= u.leaseExpiresAt.value
  }

  /** The finalizer works under this lease, with what it must have read so far. */
  predicate OnTrack(s: System, p: Proc, lease: Guid, to: Time) {
    && p.call.Finish? && Claimed(s, p.call, lease, to)
    && var (m, blob) := (s.db.uploads[p.call.id].manifest, s.bucket[p.call.id]);
       var found := Found(p.call.id, s.db.attachments[p.call.id]);
       match p.pc
       case Head(_, _) => p.pc == Head(lease, m)
       case Recheck(_, _, _) => p.pc == Recheck(lease, m, blob)
       case FindPrevious(_, _, _) => p.pc == FindPrevious(lease, m, blob)
       case HeadPrevious(_, _, _, _) => p.pc == HeadPrevious(lease, m, blob, found)
       case RecheckLast(_, _, _, _) => p.pc == RecheckLast(lease, m, blob, Some(found))
       case CommitRows(_, _, _, _, at) => p.pc == CommitRows(lease, m, blob, Some(found), at) && at < to
       case _ => false
  }

  function TurnsLeft(pc: Pc): nat {
    match pc
    case Head(_, _) => 6
    case Recheck(_, _, _) => 5
    case FindPrevious(_, _, _) => 4
    case HeadPrevious(_, _, _, _) => 3
    case RecheckLast(_, _, _, _) => 2
    case CommitRows(_, _, _, _, _) => 1
    case _ => 0
  }

  predicate CommittedAs(s: System, id: Guid) {
    id in s.db.uploads && s.db.uploads[id].state == Committed && s.db.uploads[id].attachment == Some(id)
  }

  lemma FirstTurn(s: System, p: Proc, e: Event, from: Time, to: Time)
    requires p.call.Finish? && p.pc.FinishRead? && MayRetry(s, p.call, from, to)
    requires e.Turn? && e.fate == Acked && e.now < to
    ensures Await(s, p, e) == (s, FinishClaim(s.db.uploads[p.call.id].manifest))
  {}

  lemma ClaimTurn(s: System, p: Proc, e: Event, from: Time, to: Time)
    requires p.call.Finish? && MayRetry(s, p.call, from, to) && p.pc == FinishClaim(s.db.uploads[p.call.id].manifest)
    requires e.Turn? && e.fate == Acked && from <= e.now < to
    ensures
      var (s', pc) := Await(s, p, e);
      s'.procs == s.procs && OnTrack(s', p.Go(pc), e.lease, to) && TurnsLeft(pc) == 6
  {}

  lemma ReadTurn(s: System, p: Proc, lease: Guid, e: Event, to: Time)
    requires OnTrack(s, p, lease, to) && !p.pc.CommitRows?
    requires e.Turn? && e.fate == Acked && e.row == p.call.id && e.now < to
    ensures
      var (s', pc) := Await(s, p, e);
      s' == s && OnTrack(s, p.Go(pc), lease, to) && TurnsLeft(pc) == TurnsLeft(p.pc) - 1
  {}

  lemma LastTurn(s: System, p: Proc, lease: Guid, e: Event, to: Time)
    requires OnTrack(s, p, lease, to) && p.pc.CommitRows? && e.Turn? && e.fate == Acked
    ensures CommittedAs(Await(s, p, e).0, p.call.id)
  {}

  lemma {:induction false} TrackLeadsToCommit(s: System, pid: Pid, lease: Guid, es: seq<Event>, from: Time, to: Time)
    requires pid in s.procs && OnTrack(s, s.procs[pid], lease, to) && |es| == TurnsLeft(s.procs[pid].pc)
    requires Undisturbed(es, pid, s.procs[pid].call.id, from, to)
    ensures CommittedAs(Run(s, es), s.procs[pid].call.id)
    decreases es
  {
    var p := s.procs[pid];
    var s1 := Step(s, es[0]);
    assert es[0] in es;
    if p.pc.CommitRows? {
      LastTurn(s, p, lease, es[0], to);
      assert es[1..] == [] && Run(s, es) == s1;
    } else {
      ReadTurn(s, p, lease, es[0], to);
      TrackLeadsToCommit(s1, pid, lease, es[1..], from, to);
    }
  }

  lemma ClaimLeadsToCommit(s: System, pid: Pid, es: seq<Event>, from: Time, to: Time)
    requires pid in s.procs && s.procs[pid].call.Finish? && MayRetry(s, s.procs[pid].call, from, to)
    requires s.procs[pid].pc == FinishClaim(s.db.uploads[s.procs[pid].call.id].manifest)
    requires |es| == 7 && Undisturbed(es, pid, s.procs[pid].call.id, from, to)
    ensures CommittedAs(Run(s, es), s.procs[pid].call.id)
  {
    assert es[0] in es;
    ClaimTurn(s, s.procs[pid], es[0], from, to);
    TrackLeadsToCommit(Step(s, es[0]), pid, es[0].lease, es[1..], from, to);
  }

  /** While the row is live, an undisturbed retry commits the upload with it. */
  lemma RetryCommitsTheRow(s: System, pid: Pid, es: seq<Event>, from: Time, to: Time)
    requires pid in s.procs && s.procs[pid].call.Finish? && s.procs[pid].pc.FinishRead?
    requires MayRetry(s, s.procs[pid].call, from, to)
    requires |es| == 8 && Undisturbed(es, pid, s.procs[pid].call.id, from, to)
    ensures CommittedAs(Run(s, es), s.procs[pid].call.id)
  {
    assert es[0] in es;
    FirstTurn(s, s.procs[pid], es[0], from, to);
    ClaimLeadsToCommit(Step(s, es[0]), pid, es[1..], from, to);
  }
}
