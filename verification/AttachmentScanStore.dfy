/**
 * The malware-scan queue: one job per attachment, one function per statement.
 * A job is named by its attachment, since there is never a second one.
 */
module AttachmentScanStore {
  import opened Wrappers
  import AttachmentBytes

  const SECOND: Time := 1000
  const SCAN_LEASE: Time := 120 * SECOND
  const MAX_LEASE: Time := 600 * SECOND
  const RETRY_DELAY: Time := 30 * SECOND
  const SKEW: Time := 30 * SECOND
  const MAX_ATTEMPTS: nat := 5
  const VERDICT_TTL: Time := 24 * 60 * 60 * SECOND
  const SIGNATURE_MAX_AGE: Time := 72 * 60 * 60 * SECOND

  /** What identifies stored bytes: the bucket's version, the content hash and the size. */
  datatype Identity = Identity(version: nat, sha: nat, size: nat)

  datatype Object = Object(identity: Identity, owner: nat, deleted: bool)

  datatype Status = Clean | Infected

  datatype Verdict = Verdict(status: Status, sha: nat, size: nat, engine: nat, signature: nat, signatureAt: Time,
                             scannedAt: Time)

  /** The contents of a receipt. Its SHA-256 is taken to be injective, so it also stands for its own digest. */
  datatype Evidence = Evidence(job: Guid, generation: nat, version: nat, verdict: Verdict)

  datatype ReceiptKey = ReceiptKey(job: Guid, generation: nat, digest: Evidence)

  datatype Result = Result(key: ReceiptKey, digest: Evidence, status: Status, scannedAt: Time, signatureAt: Time)

  datatype JobState = Pending | Leased | Completed | Blocked

  datatype ErrorCode = ArchivePolicy | Unavailable | IntegrityMismatch | ScanTimeout | AttemptsExhausted

  datatype Job = Job(
    identity: Identity, generation: nat, state: JobState, attempts: nat, availableAt: Time,
    scanner: Option<nat>, token: Option<nat>, startedAt: Option<Time>, expiresAt: Option<Time>,
    result: Option<Result>, error: Option<ErrorCode>, updatedAt: Time)
  {
    predicate Expired(now: Time) { expiresAt.Some? && expiresAt.value <= now }
  }

  datatype Lease = Lease(job: Guid, scanner: nat, token: nat, generation: nat)

  datatype ScanDb = ScanDb(objects: map<Guid, Object>, owners: set<nat>, jobs: map<Guid, Job>)
  {
    predicate Live(a: Guid) { a in objects && !objects[a].deleted && objects[a].owner in owners }

    predicate LiveAs(a: Guid, i: Identity) { Live(a) && objects[a].identity == i }

    /** The job still describes the live object. */
    predicate Current(a: Guid) { a in jobs && LiveAs(a, jobs[a].identity) }

    function WithJob(a: Guid, j: Job): ScanDb { this.(jobs := jobs[a := j]) }
  }

  function ActiveAttachment(db: ScanDb, a: Guid): Option<Object> {
    if db.Live(a) then Some(db.objects[a]) else None
  }

  function AttachmentJob(db: ScanDb, a: Guid): Option<Job> {
    if db.Current(a) then Some(db.jobs[a]) else None
  }

  function NewJob(i: Identity, now: Time): Job {
    Job(i, 0, Pending, 0, now, None, None, None, None, None, None, now)
  }

  /** First statement of enqueue. */
  function InsertJob(db: ScanDb, a: Guid, seen: Identity, now: Time): ScanDb {
    if db.Live(a) && db.objects[a].identity.version == seen.version && db.objects[a].identity.sha == seen.sha
       && a !in db.jobs
    then db.WithJob(a, NewJob(db.objects[a].identity, now)) else db
  }

  predicate StaleClean(j: Job, now: Time) {
    && j.state == Completed && j.result.Some? && j.result.value.status == Clean
    && (j.result.value.scannedAt < now - VERDICT_TTL || j.result.value.signatureAt < now - SIGNATURE_MAX_AGE)
  }

  /** Second statement of enqueue: a new object, or a clean verdict grown old, opens a new generation. */
  function ReopenJob(db: ScanDb, a: Guid, seen: Identity, now: Time): ScanDb {
    if a in db.jobs && db.LiveAs(a, seen) && (db.jobs[a].identity != seen || StaleClean(db.jobs[a], now))
    then db.WithJob(a, NewJob(seen, now).(generation := db.jobs[a].generation + 1)) else db
  }

  function Exhausted(j: Job, now: Time): Job {
    if j.state == Leased && j.Expired(now) && j.attempts >= MAX_ATTEMPTS
    then j.(state := Blocked, error := Some(AttemptsExhausted), generation := j.generation + 1, token := None,
            expiresAt := None, updatedAt := now)
    else j
  }

  /** First statement of claim: leases that ran out on the last attempt are blocked. */
  function ExhaustLeases(db: ScanDb, now: Time): ScanDb {
    db.(jobs := map a | a in db.jobs :: Exhausted(db.jobs[a], now))
  }

  predicate Claimable(db: ScanDb, a: Guid, now: Time) {
    && db.Current(a) && db.jobs[a].attempts < MAX_ATTEMPTS
    && ((db.jobs[a].state == Pending && db.jobs[a].availableAt <= now)
        || (db.jobs[a].state == Leased && db.jobs[a].Expired(now)))
  }

  /** The oldest claimable job, ties broken by name. */
  predicate IsNext(db: ScanDb, a: Guid, now: Time) {
    && Claimable(db, a, now)
    && forall b | b in db.jobs && Claimable(db, b, now) ::
         db.jobs[a].availableAt < db.jobs[b].availableAt || (db.jobs[a].availableAt == db.jobs[b].availableAt && a <= b)
  }

  function Claimed(j: Job, scanner: nat, token: nat, now: Time): Job {
    j.(state := Leased, generation := j.generation + 1, attempts := j.attempts + 1, scanner := Some(scanner),
       token := Some(token), startedAt := Some(now), expiresAt := Some(now + SCAN_LEASE), updatedAt := now,
       error := None)
  }

  /** Second statement of claim, applied to the job the inner query picks. */
  function ClaimJob(db: ScanDb, a: Guid, scanner: nat, token: nat, now: Time): (ScanDb, Option<Lease>) {
    if IsNext(db, a, now) then
      var j := Claimed(db.jobs[a], scanner, token, now);
      (db.WithJob(a, j), Some(Lease(a, scanner, token, j.generation)))
    else (db, None)
  }

  /** The row lets this lease act at this time. */
  predicate Authorises(j: Job, l: Lease, now: Time) {
    && j.state == Leased && j.generation == l.generation && j.scanner == Some(l.scanner) && j.token == Some(l.token)
    && j.expiresAt.Some? && j.expiresAt.value > now
  }

  predicate Holds(db: ScanDb, l: Lease, now: Time) { db.Current(l.job) && Authorises(db.jobs[l.job], l, now) }

  function AuthorizedJob(db: ScanDb, l: Lease, now: Time): Option<Job> {
    if l.generation > 0 && Holds(db, l, now) then Some(db.jobs[l.job]) else None
  }

  function Earlier(a: Time, b: Time): Time { if a <= b then a else b }

  function RenewalEnd(started: Time, now: Time): Time { Earlier(now + SCAN_LEASE, started + MAX_LEASE) }

  /** The renewing update; a CHECK constraint refuses an end that is not after the start. */
  function ExtendLease(db: ScanDb, l: Lease, end: Time, now: Time): ScanDb {
    if Holds(db, l, now) && db.jobs[l.job].startedAt.Some? && end > db.jobs[l.job].startedAt.value
    then db.WithJob(l.job, db.jobs[l.job].(expiresAt := Some(end), updatedAt := now)) else db
  }

  function FailJob(db: ScanDb, l: Lease, code: ErrorCode, now: Time): (ScanDb, bool) {
    if l.generation > 0 && code != AttemptsExhausted && Holds(db, l, now) then
      var j := db.jobs[l.job];
      var next := if code == ArchivePolicy || j.attempts >= MAX_ATTEMPTS then Blocked else Pending;
      var j' := j.(state := next, availableAt := now + RETRY_DELAY, error := Some(code), token := None,
                   expiresAt := None, updatedAt := now);
      (db.WithJob(l.job, j'), true)
    else (db, false)
  }

  function CommitResult(db: ScanDb, l: Lease, e: Evidence, now: Time): (ScanDb, bool) {
    if l.generation > 0 && Holds(db, l, now) then
      var v := e.verdict;
      var result := Result(ReceiptKey(l.job, l.generation, e), e, v.status, v.scannedAt, v.signatureAt);
      (db.WithJob(l.job, db.jobs[l.job].(state := Completed, updatedAt := now, result := Some(result))), true)
    else (db, false)
  }

  function CompletedLease(db: ScanDb, l: Lease): Option<Job> {
    if && l.generation > 0 && db.Current(l.job) && db.jobs[l.job].state == Completed
       && db.jobs[l.job].generation == l.generation
       && db.jobs[l.job].scanner == Some(l.scanner) && db.jobs[l.job].token == Some(l.token)
    then Some(db.jobs[l.job]) else None
  }

  /** A definitive, recent engine reply bound to exactly these bytes. */
  predicate ValidVerdict(v: Verdict, sha: nat, size: nat, now: Time) {
    && v.sha == sha && v.size == size && 0 < size <= AttachmentBytes.MAX_BYTES
    && now - VERDICT_TTL <= v.scannedAt <= now + SKEW
    && v.scannedAt - SIGNATURE_MAX_AGE <= v.signatureAt <= v.scannedAt + SKEW
    && v.signatureAt >= now - SIGNATURE_MAX_AGE
  }

  // ---- What every row satisfies, and how rows may change ------------------

  /** Attempts are bounded, and a lease window is exactly what its last claim or renewal made it. */
  predicate JobOk(j: Job) {
    && j.attempts <= MAX_ATTEMPTS
    && (j.state == Pending ==> j.attempts < MAX_ATTEMPTS)
    && (j.state == Leased ==>
          && j.generation > 0 && j.attempts > 0 && j.scanner.Some? && j.token.Some?
          && j.startedAt.Some? && j.expiresAt == Some(RenewalEnd(j.startedAt.value, j.updatedAt))
          && j.expiresAt.value > j.startedAt.value)
    && (j.state == Completed ==> j.result.Some?)
    && (j.state == Blocked ==> j.error.Some?)
  }

  /**
   * Within a generation a job keeps its object and its claim time, a completed
   * row is frozen, and a row that stopped being leased stays so.
   */
  predicate Later(a: Job, b: Job) {
    || b.generation > a.generation
    || (&& b.generation == a.generation && b.identity == a.identity && b.startedAt == a.startedAt
        && b.scanner == a.scanner
        && (a.state == Completed ==> b == a)
        && (a.state != Leased ==> b.state != Leased)
        && (a.state == Leased && b.state == Leased ==> b.token == a.token))
  }

  ghost predicate JobsOk(db: ScanDb) { forall a | a in db.jobs :: JobOk(db.jobs[a]) }

  /** No job disappears, and each only moves on. */
  ghost predicate JobsMoveOn(d: ScanDb, d': ScanDb) {
    forall a | a in d.jobs :: a in d'.jobs && Later(d.jobs[a], d'.jobs[a])
  }

  /** No job is completed by the step, and no completed job changes. */
  ghost predicate CompletesNone(d: ScanDb, d': ScanDb) {
    forall a | a in d'.jobs && d'.jobs[a].state == Completed :: a in d.jobs && d.jobs[a] == d'.jobs[a]
  }

  lemma ReopenMovesOn(db: ScanDb, a: Guid, seen: Identity, now: Time)
    requires JobsOk(db)
    ensures var d := ReopenJob(db, a, seen, now); JobsOk(d) && JobsMoveOn(db, d) && CompletesNone(db, d)
  {}

  lemma InsertMovesOn(db: ScanDb, a: Guid, seen: Identity, now: Time)
    requires JobsOk(db)
    ensures var d := InsertJob(db, a, seen, now); JobsOk(d) && JobsMoveOn(db, d) && CompletesNone(db, d)
  {}

  lemma ExtendMovesOn(db: ScanDb, l: Lease, started: Time, now: Time)
    requires JobsOk(db) && (Holds(db, l, now) ==> db.jobs[l.job].startedAt == Some(started))
    ensures var d := ExtendLease(db, l, RenewalEnd(started, now), now);
      JobsOk(d) && JobsMoveOn(db, d) && CompletesNone(db, d)
  {}

  // ---- Leases --------------------------------------------------------------

  /** The lease window never exceeds ten minutes from the claim. */
  lemma WindowIsBounded(j: Job, l: Lease, now: Time)
    requires JobOk(j) && Authorises(j, l, now)
    ensures j.expiresAt.value <= j.startedAt.value + MAX_LEASE
  {}

  /**
   * A renewal can shorten the lease: exactly when it took its clock reading
   * before the last one that was written, and the ten-minute bound does not
   * already decide the end.
   */
  lemma RenewalShortensIff(db: ScanDb, l: Lease, now: Time)
    requires JobsOk(db) && Holds(db, l, now)
    ensures
      var j := db.jobs[l.job];
      (RenewalEnd(j.startedAt.value, now) < j.expiresAt.value) <==>
        (now < j.updatedAt && now + SCAN_LEASE < j.startedAt.value + MAX_LEASE)
  {}

  /** Two renewals of one lease, the earlier reading written last: the second takes five seconds away. */
  lemma RenewalCanShorten()
    ensures
      var stored := Object(Identity(1, 2, 3), 0, false);
      var db := ScanDb(map[7 := stored], {0}, map[7 := Claimed(NewJob(stored.identity, 0), 4, 5, 0)]);
      var l := Lease(7, 4, 5, 1);
      var first := ExtendLease(db, l, RenewalEnd(0, 10 * SECOND), 10 * SECOND);
      var second := ExtendLease(first, l, RenewalEnd(0, 5 * SECOND), 5 * SECOND);
      && first.jobs[7].expiresAt == Some(130 * SECOND)
      && second.jobs[7].expiresAt == Some(125 * SECOND)
  {}

  /**
   * The lease is gone for good: another generation, or this one no longer
   * leased, or leased to somebody else. No clock is involved.
   */
  predicate Lost(j: Job, l: Lease) {
    || j.generation > l.generation
    || (j.generation == l.generation && (j.state != Leased || j.scanner != Some(l.scanner) || j.token != Some(l.token)))
  }

  lemma LostStaysLost(a: Job, b: Job, l: Lease, now: Time)
    requires Lost(a, l) && Later(a, b)
    ensures Lost(b, l) && !Authorises(b, l, now)
  {}

  /** The row is still leased to this lease, until the given time. */
  predicate LeasedUntil(j: Job, l: Lease, x: Time) {
    && j.state == Leased && j.generation == l.generation && j.scanner == Some(l.scanner) && j.token == Some(l.token)
    && j.expiresAt == Some(x)
  }

  /**
   * Expiry alone is not final: a renewal that read its clock before the expiry
   * may write after it, and the lease acts again.
   */
  lemma LateRenewalRevives()
    ensures
      var stored := Object(Identity(1, 2, 3), 0, false);
      var db := ScanDb(map[7 := stored], {0}, map[7 := Claimed(NewJob(stored.identity, 0), 4, 5, 0)]);
      var l := Lease(7, 4, 5, 1);
      && !Holds(db, l, 121 * SECOND)
      && Holds(ExtendLease(db, l, RenewalEnd(0, 119 * SECOND), 119 * SECOND), l, 121 * SECOND)
  {}

  /** The jobs are in order and each only moved on. */
  ghost predicate MovesOn(d: ScanDb, d': ScanDb) { JobsOk(d) ==> JobsOk(d') && JobsMoveOn(d, d') }

  lemma ExhaustMovesOn(db: ScanDb, now: Time)
    ensures MovesOn(db, ExhaustLeases(db, now))
  {}

  /** The end a renewal of this lease computes from its row and its clock reading. */
  predicate EndsARenewal(d: ScanDb, l: Lease, end: Time, now: Time) {
    l.job in d.jobs && d.jobs[l.job].startedAt.Some? && end == RenewalEnd(d.jobs[l.job].startedAt.value, now)
  }

  // ---- The store -----------------------------------------------------------

  /** The scan tables; each method is one statement. */
  class Store {
    var objects: map<Guid, Object>
    var owners: set<nat>
    var jobs: map<Guid, Job>

    function Value(): ScanDb
      reads this
    {
      ScanDb(objects, owners, jobs)
    }

    constructor ()
      ensures Value() == ScanDb(map[], {}, map[])
    {
      objects, owners, jobs := map[], {}, map[];
    }

    method Insert(a: Guid, seen: Identity, now: Time)
      modifies `jobs
      ensures Value() == InsertJob(old(Value()), a, seen, now)
      ensures MovesOn(old(Value()), Value())
      ensures forall b | b in old(jobs) :: b in jobs && jobs[b] == old(jobs)[b]
      ensures jobs != old(jobs) ==>
        jobs.Keys == old(jobs).Keys + {a} && Value().Current(a) && jobs[a] == NewJob(objects[a].identity, now)
    {
      if Value().Live(a) && objects[a].identity.version == seen.version && objects[a].identity.sha == seen.sha {
        if a !in jobs { jobs := jobs[a := NewJob(objects[a].identity, now)]; }
      }
    }

    method Reopen(a: Guid, seen: Identity, now: Time)
      modifies `jobs
      ensures Value() == ReopenJob(old(Value()), a, seen, now)
      ensures MovesOn(old(Value()), Value()) && jobs - {a} == old(jobs) - {a}
      ensures a in old(jobs) && jobs != old(jobs) ==>
        && jobs[a].state == Pending && jobs[a].attempts == 0 && jobs[a].result.None? && Value().Current(a)
        && (forall l: Lease | l.generation <= old(jobs)[a].generation :: Lost(jobs[a], l))
      ensures a in old(jobs) && old(jobs)[a].identity == seen && !StaleClean(old(jobs)[a], now) ==> jobs == old(jobs)
    {
      if a in jobs && Value().LiveAs(a, seen) {
        if jobs[a].identity != seen || StaleClean(jobs[a], now) {
          jobs := jobs[a := NewJob(seen, now).(generation := jobs[a].generation + 1)];
        }
      }
    }

    /** Blocks every job whose last lease ran out, one row at a time. */
    method Exhaust(now: Time)
      modifies `jobs
      ensures Value() == ExhaustLeases(old(Value()), now)
      ensures MovesOn(old(Value()), Value())
    {
      ExhaustMovesOn(Value(), now);
      ghost var before := jobs;
      var rest := jobs.Keys;
      while rest != {}
        invariant rest <= before.Keys && jobs.Keys == before.Keys
        invariant objects == old(objects) && owners == old(owners)
        invariant forall a | a in before :: jobs[a] == if a in rest then before[a] else Exhausted(before[a], now)
        decreases |rest|
      {
        var a :| a in rest;
        rest := rest - {a};
        if jobs[a].state == Leased && jobs[a].Expired(now) && jobs[a].attempts >= MAX_ATTEMPTS {
          jobs := jobs[a := jobs[a].(state := Blocked, error := Some(AttemptsExhausted),
                                     generation := jobs[a].generation + 1,
                                     token := None, expiresAt := None, updatedAt := now)];
        }
      }
      assert jobs == ExhaustLeases(old(Value()), now).jobs;
    }

    /** The inner query of claim: the oldest claimable job, if there is one. */
    method Next(now: Time) returns (next: Option<Guid>)
      ensures next.Some? ==> IsNext(Value(), next.value, now)
      ensures next.None? ==> forall a | a in jobs :: !Claimable(Value(), a, now)
    {
      next := None;
      var rest := jobs.Keys;
      while rest != {}
        invariant rest <= jobs.Keys
        invariant next.None? ==> forall a | a in jobs && a !in rest :: !Claimable(Value(), a, now)
        invariant next.Some? ==>
          && Claimable(Value(), next.value, now)
          && forall b | b in jobs && b !in rest && Claimable(Value(), b, now) ::
               jobs[next.value].availableAt < jobs[b].availableAt
                 || (jobs[next.value].availableAt == jobs[b].availableAt && next.value <= b)
        decreases |rest|
      {
        var a :| a in rest;
        rest := rest - {a};
        if Claimable(Value(), a, now) {
          if || next.None? || jobs[a].availableAt < jobs[next.value].availableAt
             || (jobs[a].availableAt == jobs[next.value].availableAt && a < next.value) {
            next := Some(a);
          }
        }
      }
    }

    method Claim(scanner: nat, token: nat, now: Time) returns (lease: Option<Lease>)
      modifies `jobs
      ensures lease.Some? ==> (Value(), lease) == ClaimJob(old(Value()), lease.value.job, scanner, token, now)
      ensures MovesOn(old(Value()), Value())
      ensures lease.Some? ==> Holds(Value(), lease.value, now) && !Holds(Value(), lease.value, now + SCAN_LEASE)
      ensures lease.Some? ==> forall l: Lease, t | Holds(Value(), l, t) && l.job == lease.value.job :: l == lease.value
      ensures lease.None? ==> Value() == old(Value()) && forall a | a in jobs :: !Claimable(Value(), a, now)
    {
      var next := Next(now);
      if next.None? { return None; }
      var a := next.value;
      jobs := jobs[a := jobs[a].(state := Leased, generation := jobs[a].generation + 1,
                                 attempts := jobs[a].attempts + 1,
                                 scanner := Some(scanner), token := Some(token), startedAt := Some(now),
                                 expiresAt := Some(now + SCAN_LEASE), updatedAt := now, error := None)];
      lease := Some(Lease(a, scanner, token, jobs[a].generation));
    }

    method Extend(l: Lease, end: Time, now: Time)
      modifies `jobs
      ensures Value() == ExtendLease(old(Value()), l, end, now)
      ensures !Holds(old(Value()), l, now) ==> Value() == old(Value())
      ensures forall other: Lease, t | other != l :: Holds(Value(), other, t) <==> Holds(old(Value()), other, t)
      ensures Value() != old(Value()) ==> forall t :: Holds(Value(), l, t) <==> t < end
      ensures EndsARenewal(old(Value()), l, end, now) ==> MovesOn(old(Value()), Value())
    {
      if Holds(Value(), l, now) {
        if jobs[l.job].startedAt.Some? && end > jobs[l.job].startedAt.value {
          jobs := jobs[l.job := jobs[l.job].(expiresAt := Some(end), updatedAt := now)];
        }
      }
    }

    method Fail(l: Lease, code: ErrorCode, now: Time) returns (done: bool)
      modifies `jobs
      ensures (Value(), done) == FailJob(old(Value()), l, code, now)
      ensures MovesOn(old(Value()), Value()) && (!done ==> Value() == old(Value()))
      ensures done ==> Holds(old(Value()), l, now) && jobs - {l.job} == old(jobs) - {l.job}
      ensures done ==> forall other: Lease, t :: other.job == l.job ==> !Holds(Value(), other, t)
      ensures done ==> forall t :: Claimable(Value(), l.job, t) ==> code != ArchivePolicy && now + RETRY_DELAY <= t
    {
      done := l.generation > 0 && code != AttemptsExhausted && Holds(Value(), l, now);
      if done {
        var terminal := code == ArchivePolicy || jobs[l.job].attempts >= MAX_ATTEMPTS;
        jobs := jobs[l.job := jobs[l.job].(state := if terminal then Blocked else Pending,
                                           availableAt := now + RETRY_DELAY,
                                           error := Some(code), token := None, expiresAt := None, updatedAt := now)];
      }
    }

    method Commit(l: Lease, e: Evidence, now: Time) returns (done: bool)
      modifies `jobs
      ensures (Value(), done) == CommitResult(old(Value()), l, e, now)
      ensures MovesOn(old(Value()), Value()) && (!done ==> Value() == old(Value()))
      ensures done ==> Holds(old(Value()), l, now) && jobs - {l.job} == old(jobs) - {l.job}
      ensures done ==>
        CompletedLease(Value(), l).Some? && jobs[l.job].result.value.key == ReceiptKey(l.job, jobs[l.job].generation, e)
      ensures done ==> forall other: Lease, t ::
        other.job == l.job ==> !Holds(Value(), other, t) && !Claimable(Value(), l.job, t)
    {
      done := l.generation > 0 && Holds(Value(), l, now);
      if done {
        var v := e.verdict;
        var result := Result(ReceiptKey(l.job, l.generation, e), e, v.status, v.scannedAt, v.signatureAt);
        jobs := jobs[l.job := jobs[l.job].(state := Completed, result := Some(result), updatedAt := now)];
      }
    }
  }
}
