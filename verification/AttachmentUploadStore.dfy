/** Upload sessions, their quota, and the attachment rows they end in; one function per statement or batch. */
module AttachmentUploadStore {
  import opened Wrappers

  const MINUTE: Time := 60 * 1000
  const DAY: Time := 24 * 60 * MINUTE
  const UPLOAD_TTL: Time := 60 * MINUTE
  const FINALIZE_LEASE: Time := 2 * MINUTE
  const MAX_ACTIVE_UPLOADS: nat := 3
  const MAX_DAILY_UPLOADS: nat := 40
  const MAX_DAILY_BYTES: nat := 100 * 1024 * 1024

  /** The parts of a validated manifest the rows depend on: its owner, and hash and size of the whole file. */
  datatype Manifest = Manifest(owner: nat, sha: nat, size: nat)

  datatype UploadState = Uploading | Finalizing | Committed | Cancelled

  datatype Upload = Upload(
    creator: nat, session: nat, key: nat, manifest: Manifest, state: UploadState, attachment: Option<Guid>,
    leaseOwner: Option<Guid>, leaseExpiresAt: Option<Time>, createdAt: Time, expiresAt: Time)
  {
    predicate Active() { state.Uploading? || state.Finalizing? }

    /** This finalization lease may write at this time. */
    predicate Finalizable(lease: Guid, now: Time) {
      && state == Finalizing && leaseOwner == Some(lease) && expiresAt > now
      && leaseExpiresAt.Some? && leaseExpiresAt.value > now
    }
  }

  /** Attachment rows; storage names the bucket key, which is the id of the upload that wrote it. */
  datatype Attachment = Attachment(owner: nat, sha: nat, size: nat, storage: Guid, version: nat, deleted: bool)
  {
    predicate Same(other: Attachment) { this.(deleted := false) == other.(deleted := false) }
  }

  /** uploads in the order of their insertion: order holds their names. */
  datatype UploadDb = UploadDb(uploads: map<Guid, Upload>, order: seq<Guid>, attachments: map<Guid, Attachment>,
                               owners: set<nat>)
  {
    function WithUpload(id: Guid, u: Upload): UploadDb { this.(uploads := uploads[id := u]) }
  }

  const EMPTY := UploadDb(map[], [], map[], {})

  // ---- Quota ---------------------------------------------------------------

  function Count(db: UploadDb, ids: seq<Guid>, counts: Upload -> bool): nat {
    if ids == [] then 0
    else Count(db, ids[..|ids| - 1], counts)
         + (if ids[|ids| - 1] in db.uploads && counts(db.uploads[ids[|ids| - 1]]) then 1 else 0)
  }

  function Bytes(db: UploadDb, ids: seq<Guid>, counts: Upload -> bool): nat {
    if ids == [] then 0
    else Bytes(db, ids[..|ids| - 1], counts)
         + (if ids[|ids| - 1] in db.uploads && counts(db.uploads[ids[|ids| - 1]])
            then db.uploads[ids[|ids| - 1]].manifest.size else 0)
  }

  function Since(creator: nat, since: Time): Upload -> bool {
    (u: Upload) => u.creator == creator && u.createdAt >= since
  }

  function Within(creator: nat, from: Time, to: Time): Upload -> bool {
    (u: Upload) => u.creator == creator && from <= u.createdAt <= to
  }

  function ActiveAt(creator: nat, t: Time): Upload -> bool {
    (u: Upload) => u.creator == creator && u.Active() && u.expiresAt > t
  }

  predicate Admitted(db: UploadDb, creator: nat, size: nat, now: Time) {
    && Count(db, db.order, ActiveAt(creator, now)) < MAX_ACTIVE_UPLOADS
    && Count(db, db.order, Since(creator, now - DAY)) < MAX_DAILY_UPLOADS
    && Bytes(db, db.order, Since(creator, now - DAY)) + size <= MAX_DAILY_BYTES
  }

  predicate KeyTaken(db: UploadDb, creator: nat, session: nat, key: nat) {
    exists id | id in db.uploads ::
      db.uploads[id].creator == creator && db.uploads[id].session == session && db.uploads[id].key == key
  }

  /** Quota check and insertion are one statement; a primary-key clash throws and leaves nothing. */
  function InsertUpload(
    db: UploadDb, id: Guid, creator: nat, session: nat, key: nat, m: Manifest, now: Time): UploadDb {
    if Admitted(db, creator, m.size, now) && !KeyTaken(db, creator, session, key) && id !in db.uploads
    then
      var u := Upload(creator, session, key, m, Uploading, None, None, None, now, now + UPLOAD_TTL);
      db.(uploads := db.uploads[id := u], order := db.order + [id])
    else db
  }

  // ---- Finalization --------------------------------------------------------

  function ClaimFinalization(
    db: UploadDb, id: Guid, creator: nat, session: nat, lease: Guid, now: Time): (UploadDb, bool) {
    if && id in db.uploads && db.uploads[id].creator == creator && db.uploads[id].session == session
       && db.uploads[id].expiresAt > now
       && (db.uploads[id].state == Uploading
           || (db.uploads[id].state == Finalizing && db.uploads[id].leaseExpiresAt.Some?
               && db.uploads[id].leaseExpiresAt.value <= now))
    then
      var u := db.uploads[id].(state := Finalizing, leaseOwner := Some(lease),
                               leaseExpiresAt := Some(now + FINALIZE_LEASE));
      (db.WithUpload(id, u), true)
    else (db, false)
  }

  function ReleaseFinalization(db: UploadDb, id: Guid, lease: Guid): UploadDb {
    if id in db.uploads && db.uploads[id].state == Finalizing && db.uploads[id].leaseOwner == Some(lease)
    then db.WithUpload(id, db.uploads[id].(state := Uploading, leaseOwner := None, leaseExpiresAt := None)) else db
  }

  predicate MayFinalize(db: UploadDb, id: Guid, lease: Guid, now: Time) {
    && id in db.uploads && db.uploads[id].Finalizable(lease, now) && db.uploads[id].manifest.owner in db.owners
  }

  /** The partial unique index on live rows. */
  predicate LiveDuplicate(db: UploadDb, m: Manifest) {
    exists a | a in db.attachments ::
      !db.attachments[a].deleted && db.attachments[a].owner == m.owner && db.attachments[a].sha == m.sha
  }

  /** First statement of the commit batch; None means it threw on a key it does not tolerate. */
  function InsertAttachment(db: UploadDb, id: Guid, lease: Guid, version: nat, now: Time): Option<UploadDb> {
    if !MayFinalize(db, id, lease, now) || LiveDuplicate(db, db.uploads[id].manifest) then Some(db)
    else if id in db.attachments || (exists a | a in db.attachments :: db.attachments[a].storage == id) then None
    else
      var m := db.uploads[id].manifest;
      Some(db.(attachments := db.attachments[id := Attachment(m.owner, m.sha, m.size, id, version, false)]))
  }

  /** The winner's row is live and is the one the finalizer looked at. */
  predicate Names(db: UploadDb, winner: Guid, m: Manifest, storage: Guid, version: nat) {
    && winner in db.attachments && !db.attachments[winner].deleted
    && db.attachments[winner].owner == m.owner && db.attachments[winner].sha == m.sha
    && db.attachments[winner].storage == storage && db.attachments[winner].version == version
  }

  /** Second statement. */
  function CommitUpload(
    db: UploadDb, id: Guid, lease: Guid, winner: Guid, storage: Guid, version: nat, now: Time): (UploadDb, bool) {
    if MayFinalize(db, id, lease, now) && Names(db, winner, db.uploads[id].manifest, storage, version)
    then
      var u := db.uploads[id].(state := Committed, attachment := Some(winner), leaseOwner := None,
                               leaseExpiresAt := None);
      (db.WithUpload(id, u), true)
    else (db, false)
  }

  /** The batch: all or nothing when a statement throws; the flag says whether the upload was committed. */
  function CommitBatch(
    db: UploadDb, id: Guid, lease: Guid, objectVersion: nat, winner: Guid, storage: Guid, version: nat, now: Time)
    : (UploadDb, bool)
  {
    var inserted := InsertAttachment(db, id, lease, objectVersion, now);
    if inserted.None? then (db, false) else CommitUpload(inserted.value, id, lease, winner, storage, version, now)
  }

  function DeleteAttachment(db: UploadDb, id: Guid): UploadDb {
    if id in db.attachments then db.(attachments := db.attachments[id := db.attachments[id].(deleted := true)]) else db
  }

  /** The batch adds the upload's own attachment row. */
  predicate Inserts(before: UploadDb, after: UploadDb, id: Guid) {
    id !in before.attachments && id in after.attachments
  }

  /** The first statement would add a row: the lease holds, nothing live has these bytes, and no key is taken. */
  predicate WillInsert(db: UploadDb, id: Guid, lease: Guid, now: Time) {
    && id !in db.attachments && MayFinalize(db, id, lease, now) && !LiveDuplicate(db, db.uploads[id].manifest)
    && !(exists a | a in db.attachments :: db.attachments[a].storage == id)
  }

  /**
   * When the inserted row survives alone, for all rows and all arguments:
   * exactly when the insertion happens although the caller decided on another
   * winner than its own object.
   */
  lemma SurvivesAloneIff(
    db: UploadDb, id: Guid, lease: Guid, objectVersion: nat, winner: Guid, storage: Guid, version: nat, now: Time)
    ensures
      var (after, committed) := CommitBatch(db, id, lease, objectVersion, winner, storage, version, now);
      (Inserts(db, after, id) && !committed) <==>
      (WillInsert(db, id, lease, now) && !(winner == id && storage == id && version == objectVersion))
  {}

  /** A caller that found no previous row names its own object; then insertion and commit agree. */
  lemma OwnObjectIsBothOrNeither(db: UploadDb, id: Guid, lease: Guid, objectVersion: nat, now: Time)
    requires id !in db.attachments
    ensures
      var (after, committed) := CommitBatch(db, id, lease, objectVersion, id, id, objectVersion, now);
      id in after.attachments <==> committed
  {
    SurvivesAloneIff(db, id, lease, objectVersion, id, id, objectVersion, now);
  }

  /**
   * The two statements of the batch are not both-or-neither: when the duplicate
   * the finalizer found is deleted in between, its own row is inserted and the
   * upload stays uncommitted.
   */
  lemma InsertMaySurviveAlone()
    ensures
      var m := Manifest(1, 2, 3);
      var earlier := Attachment(1, 2, 3, 50, 60, false);
      var u := Upload(4, 5, 6, m, Finalizing, None, Some(7), Some(100), 0, 100);
      var before := UploadDb(map[8 := u], [8], map[50 := earlier], {1});
      var (after, committed) := CommitBatch(DeleteAttachment(before, 50), 8, 7, 61, 50, 50, 60, 10);
      && 8 !in before.attachments && 8 in after.attachments && !after.attachments[8].deleted
      && !committed && after.uploads[8].state == Finalizing
  {}

  // ---- Counting ------------------------------------------------------------

  /** Counting more generously counts at least as many. */
  lemma {:induction false} CountGrows(db: UploadDb, ids: seq<Guid>, p: Upload -> bool, q: Upload -> bool)
    requires forall u :: p(u) ==> q(u)
    ensures Count(db, ids, p) <= Count(db, ids, q) && Bytes(db, ids, p) <= Bytes(db, ids, q)
    decreases ids
  {
    if ids != [] { CountGrows(db, ids[..|ids| - 1], p, q); }
  }

  /** Rows that look the same to the count are counted the same. */
  lemma {:induction false} CountSame(d: UploadDb, d': UploadDb, ids: seq<Guid>, p: Upload -> bool)
    requires forall id | id in ids ::
      id in d.uploads && id in d'.uploads && p(d.uploads[id]) == p(d'.uploads[id])
        && d.uploads[id].manifest == d'.uploads[id].manifest
    ensures Count(d, ids, p) == Count(d', ids, p) && Bytes(d, ids, p) == Bytes(d', ids, p)
    decreases ids
  {
    if ids != [] { CountSame(d, d', ids[..|ids| - 1], p); }
  }

  /** A count shrinks when rows stop being counted. */
  lemma {:induction false} CountShrinks(d: UploadDb, d': UploadDb, ids: seq<Guid>, p: Upload -> bool)
    requires forall id | id in ids :: id in d.uploads && id in d'.uploads && (p(d'.uploads[id]) ==> p(d.uploads[id]))
    ensures Count(d', ids, p) <= Count(d, ids, p)
    decreases ids
  {
    if ids != [] { CountShrinks(d, d', ids[..|ids| - 1], p); }
  }

  // ---- What the quota guarantees -------------------------------------------

  /** No closed 24-hour window holds more than the daily quota. */
  ghost predicate WindowsOk(db: UploadDb) {
    forall creator, t: Time :: WindowOk(db, creator, t)
  }

  predicate WindowOk(db: UploadDb, creator: nat, t: Time) {
    && Count(db, db.order, Within(creator, t, t + DAY)) <= MAX_DAILY_UPLOADS
    && Bytes(db, db.order, Within(creator, t, t + DAY)) <= MAX_DAILY_BYTES
  }

  predicate CreatedBy(db: UploadDb, creator: nat, t: Time) {
    forall id | id in db.uploads && db.uploads[id].creator == creator :: db.uploads[id].createdAt <= t
  }

  /** Once the clock has passed every creation, at most three uploads are active and unexpired. */
  ghost predicate ActiveOk(db: UploadDb) {
    forall creator, t: Time | CreatedBy(db, creator, t) ::
      Count(db, db.order, ActiveAt(creator, t)) <= MAX_ACTIVE_UPLOADS
  }

  ghost predicate OrderOk(db: UploadDb) {
    && (forall id | id in db.order :: id in db.uploads)
    && (forall i, j | 0 <= i < j < |db.order| :: db.order[i] != db.order[j])
    && (forall id | id in db.uploads :: id in db.order)
  }

  ghost predicate QuotaOk(db: UploadDb) { OrderOk(db) && WindowsOk(db) && ActiveOk(db) }

  lemma InsertKeepsWindow(db: UploadDb, id: Guid, u: Upload, creator: nat, t: Time)
    requires OrderOk(db) && WindowOk(db, creator, t) && id !in db.uploads
    requires Admitted(db, u.creator, u.manifest.size, u.createdAt)
    ensures WindowOk(db.(uploads := db.uploads[id := u], order := db.order + [id]), creator, t)
  {
    var d := db.(uploads := db.uploads[id := u], order := db.order + [id]);
    var p := Within(creator, t, t + DAY);
    assert d.order[..|d.order| - 1] == db.order;
    CountSame(db, d, db.order, p);
    if p(u) { CountGrows(db, db.order, p, Since(creator, u.createdAt - DAY)); }
  }

  lemma InsertKeepsActive(db: UploadDb, id: Guid, u: Upload, creator: nat, t: Time)
    requires OrderOk(db) && ActiveOk(db) && id !in db.uploads
    requires Admitted(db, u.creator, u.manifest.size, u.createdAt)
    requires CreatedBy(db.(uploads := db.uploads[id := u], order := db.order + [id]), creator, t)
    ensures Count(db.(uploads := db.uploads[id := u], order := db.order + [id]), db.order + [id],
                  ActiveAt(creator, t)) <= MAX_ACTIVE_UPLOADS
  {
    var d := db.(uploads := db.uploads[id := u], order := db.order + [id]);
    var p := ActiveAt(creator, t);
    assert d.order[..|d.order| - 1] == db.order;
    CountSame(db, d, db.order, p);
    forall other | other in db.uploads && db.uploads[other].creator == creator
      ensures db.uploads[other].createdAt <= t
    {
      assert d.uploads[other] == db.uploads[other];
    }
    assert CreatedBy(db, creator, t);
    if p(u) {
      assert d.uploads[id].createdAt <= t;
      CountGrows(db, db.order, p, ActiveAt(creator, u.createdAt));
    }
  }

  /** A newly admitted upload breaks no window and no active limit, whatever the clocks of the callers say. */
  lemma InsertKeepsQuota(db: UploadDb, id: Guid, creator: nat, session: nat, key: nat, m: Manifest, now: Time)
    requires QuotaOk(db)
    ensures QuotaOk(InsertUpload(db, id, creator, session, key, m, now))
  {
    var d := InsertUpload(db, id, creator, session, key, m, now);
    if d != db {
      var u := d.uploads[id];
      forall c, t: Time ensures WindowOk(d, c, t) { InsertKeepsWindow(db, id, u, c, t); }
      forall c, t: Time | CreatedBy(d, c, t) ensures Count(d, d.order, ActiveAt(c, t)) <= MAX_ACTIVE_UPLOADS {
        InsertKeepsActive(db, id, u, c, t);
      }
    }
  }

  /** A row moved without becoming active again; its creator, manifest and times stay. */
  predicate Winds(u: Upload, u': Upload) {
    && u'.creator == u.creator && u'.manifest == u.manifest && u'.createdAt == u.createdAt
    && u'.expiresAt == u.expiresAt
    && (u'.Active() ==> u.Active())
  }

  lemma UpdateKeepsQuota(db: UploadDb, id: Guid, u: Upload)
    requires QuotaOk(db) && id in db.uploads && Winds(db.uploads[id], u)
    ensures QuotaOk(db.WithUpload(id, u))
  {
    var d := db.WithUpload(id, u);
    forall c, t: Time ensures WindowOk(d, c, t) {
      assert WindowOk(db, c, t);
      CountSame(db, d, db.order, Within(c, t, t + DAY));
    }
    forall c, t: Time | CreatedBy(d, c, t) ensures Count(d, d.order, ActiveAt(c, t)) <= MAX_ACTIVE_UPLOADS {
      forall other | other in db.uploads && db.uploads[other].creator == c ensures db.uploads[other].createdAt <= t {
        assert d.uploads[other].createdAt == db.uploads[other].createdAt;
      }
      assert CreatedBy(db, c, t);
      CountShrinks(db, d, db.order, ActiveAt(c, t));
    }
  }

  /** Attachment rows and owners do not enter the quota. */
  lemma QuotaIgnoresTheRest(db: UploadDb, d: UploadDb)
    requires QuotaOk(db) && d.uploads == db.uploads && d.order == db.order
    ensures QuotaOk(d)
  {
    forall c, t: Time ensures WindowOk(d, c, t) {
      assert WindowOk(db, c, t);
      CountSame(db, d, db.order, Within(c, t, t + DAY));
    }
    forall c, t: Time | CreatedBy(d, c, t) ensures Count(d, d.order, ActiveAt(c, t)) <= MAX_ACTIVE_UPLOADS {
      assert CreatedBy(db, c, t);
      CountSame(db, d, db.order, ActiveAt(c, t));
    }
  }

  // ---- The store -----------------------------------------------------------

  /** The upload tables; each method is one statement or one batch. */
  class Store {
    var uploads: map<Guid, Upload>
    var order: seq<Guid>
    var attachments: map<Guid, Attachment>
    var owners: set<nat>

    function Value(): UploadDb
      reads this
    {
      UploadDb(uploads, order, attachments, owners)
    }

    constructor ()
      ensures Value() == EMPTY && QuotaOk(Value())
    {
      uploads, order, attachments, owners := map[], [], map[], {};
      new;
      forall c, t: Time ensures WindowOk(Value(), c, t) {}
    }

    /** Admits a new upload within the quota; the quota holds afterwards if it held before. */
    method Create(id: Guid, creator: nat, session: nat, key: nat, m: Manifest, now: Time)
      modifies `uploads, `order
      ensures Value() == InsertUpload(old(Value()), id, creator, session, key, m, now)
      ensures old(QuotaOk(Value())) ==> QuotaOk(Value())
    {
      ghost var before := Value();
      if Admitted(Value(), creator, m.size, now) && !KeyTaken(Value(), creator, session, key) && id !in uploads {
        uploads := uploads[id := Upload(creator, session, key, m, Uploading, None, None, None, now, now + UPLOAD_TTL)];
        order := order + [id];
      }
      assert Value() == InsertUpload(before, id, creator, session, key, m, now);
      if QuotaOk(before) { InsertKeepsQuota(before, id, creator, session, key, m, now); }
    }

    method Claim(id: Guid, creator: nat, session: nat, lease: Guid, now: Time) returns (claimed: bool)
      modifies `uploads
      ensures (Value(), claimed) == ClaimFinalization(old(Value()), id, creator, session, lease, now)
      ensures !claimed ==> Value() == old(Value())
      ensures claimed ==> uploads - {id} == old(uploads) - {id} && Winds(old(uploads)[id], uploads[id])
      ensures claimed ==> forall other, t | MayFinalize(old(Value()), id, other, t) :: t < now
      ensures claimed ==> forall other, t | MayFinalize(Value(), id, other, t) ::
        other == lease && t < now + FINALIZE_LEASE
      ensures old(QuotaOk(Value())) ==> QuotaOk(Value())
    {
      ghost var before := Value();
      claimed := && id in uploads && uploads[id].creator == creator && uploads[id].session == session
        && uploads[id].expiresAt > now
                 && (uploads[id].state == Uploading
                     || (uploads[id].state == Finalizing && uploads[id].leaseExpiresAt.Some?
                         && uploads[id].leaseExpiresAt.value <= now));
      if claimed {
        uploads := uploads[id := uploads[id].(state := Finalizing, leaseOwner := Some(lease),
                                              leaseExpiresAt := Some(now + FINALIZE_LEASE))];
        assert Value() == before.WithUpload(id, uploads[id]);
        if QuotaOk(before) { UpdateKeepsQuota(before, id, uploads[id]); }
      }
    }

    method Release(id: Guid, lease: Guid)
      modifies `uploads
      ensures Value() == ReleaseFinalization(old(Value()), id, lease)
      ensures forall t :: !MayFinalize(Value(), id, lease, t)
      ensures uploads - {id} == old(uploads) - {id}
      ensures id in old(uploads) && old(uploads)[id].leaseOwner != Some(lease) ==> Value() == old(Value())
      ensures old(QuotaOk(Value())) ==> QuotaOk(Value())
    {
      ghost var before := Value();
      if id in uploads && uploads[id].state == Finalizing && uploads[id].leaseOwner == Some(lease) {
        uploads := uploads[id := uploads[id].(state := Uploading, leaseOwner := None, leaseExpiresAt := None)];
        assert Value() == before.WithUpload(id, uploads[id]);
        if QuotaOk(before) { UpdateKeepsQuota(before, id, uploads[id]); }
      }
    }

    /** Publishes the attachment row and commits the upload; throws only before either is written. */
    method Commit(
      id: Guid, lease: Guid, objectVersion: nat, winner: Guid, storage: Guid, version: nat, now: Time)
      returns (committed: bool)
      modifies `uploads, `attachments
      ensures (Value(), committed) == CommitBatch(old(Value()), id, lease, objectVersion, winner, storage, version, now)
      ensures committed ==>
        uploads[id].state == Committed && uploads[id].attachment == Some(winner) && !attachments[winner].deleted
    {
      committed := false;
      if !MayFinalize(Value(), id, lease, now) { return; }
      var m := uploads[id].manifest;
      if !LiveDuplicate(Value(), m) {
        if id in attachments || exists a | a in attachments :: attachments[a].storage == id { return; }
        attachments := attachments[id := Attachment(m.owner, m.sha, m.size, id, objectVersion, false)];
      }
      if Names(Value(), winner, m, storage, version) {
        uploads := uploads[id := uploads[id].(state := Committed, attachment := Some(winner), leaseOwner := None,
                                              leaseExpiresAt := None)];
        committed := true;
      }
    }

    method Delete(id: Guid)
      modifies `attachments
      ensures Value() == DeleteAttachment(old(Value()), id)
      ensures attachments.Keys == old(attachments).Keys
      ensures forall a | a in attachments ::
        attachments[a].Same(old(attachments)[a]) && (a != id ==> attachments[a] == old(attachments)[a])
      ensures forall m, storage, version :: !Names(Value(), id, m, storage, version)
      ensures old(QuotaOk(Value())) ==> QuotaOk(Value())
    {
      ghost var before := Value();
      if id in attachments { attachments := attachments[id := attachments[id].(deleted := true)]; }
      if QuotaOk(before) { QuotaIgnoresTheRest(before, Value()); }
    }
  }
}
