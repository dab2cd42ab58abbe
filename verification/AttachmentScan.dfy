/**
 * Scanners, enqueuers and download checks over one queue, one bucket and the
 * immutable receipts. Every await is a step; a call reads the clock when the
 * source does, and nothing is assumed about how clock readings are ordered.
 */
module AttachmentScan {
  import opened Wrappers
  import opened AttachmentScanStore

  type Pid = nat

  /** Rows, bucket objects (with every version ever used) and receipts. */
  datatype Shared = Shared(db: ScanDb, bucket: map<Guid, Identity>, used: set<nat>, receipts: map<ReceiptKey, Evidence>)

  datatype Call =
    | Enqueue(attachment: Guid, now: Time)
    | Claim(scanner: nat, token: nat, now: Time)
    | Renew(lease: Lease, now: Time)
    | Fail(lease: Lease, code: ErrorCode, now: Time)
    | Complete(lease: Lease, verdict: Verdict)
    | Serve(attachment: Guid)
    | Inspect(attachment: Guid)

  /**
   * A served answer remembers the evidence it rests on, the instant that counts, and its last clock reading; a
   * refused one when it last saw the bytes. Both remember the state their last read was made in.
   */
  datatype Answer =
    | NoAnswer | Completion | Duplicate | Rejected
    | Served(row: Object, evidence: Evidence, instant: nat, ended: nat, at: Time)
    | Refused(row: Object, seen: nat, ended: nat)

  /** Where the four authorizing reads return to: nothing yet, or evidence already stored. */
  datatype Pc =
    | EnqueueRead | EnqueueInsert(seen: Identity) | EnqueueReopen(seen: Identity)
    | ClaimExhaust | ClaimTake
    | RenewRead | RenewWrite(started: Time)
    | FailWrite
    | AuthJob(stored: Option<(Job, Evidence)>)
    | AuthRow(stored: Option<(Job, Evidence)>, job: Job)
    | AuthHead(stored: Option<(Job, Evidence)>, job: Job, row: Object)
    | AuthAgain(stored: Option<(Job, Evidence)>, job: Job, row: Object)
    | ReadCompleted
    | DuplicateRow(job: Job, evidence: Evidence) | DuplicateHead(job: Job, evidence: Evidence, row: Object)
    | DuplicateReceipt(evidence: Evidence)
    | PutReceipt(job: Job, evidence: Evidence) | CheckReceipt(job: Job, evidence: Evidence)
    | Commit(job: Job, evidence: Evidence) | ReadWinner(evidence: Evidence)
    | ServeRow | ServeJob(row: Object) | ServeHead(row: Object, job: Job) | ServeReceipt(row: Object, job: Job)
    | ServeAgain(row: Object, job: Job, evidence: Evidence) | ServeLast(row: Object, evidence: Evidence, instant: nat)
    | InspectRow | InspectJob(row: Object) | InspectHead(row: Object, job: Job) | InspectReceipt(row: Object, job: Job)
    | InspectHeadAgain(row: Object, job: Job) | InspectRowAgain(row: Object, job: Job, saw: nat)
    | InspectJobAgain(row: Object, job: Job, saw: nat)
    | Over(answer: Answer)

  datatype Proc = Proc(call: Call, began: nat, pc: Pc)
  {
    function Go(next: Pc): Proc { this.(pc := next) }
  }

  /** history holds every shared state so far, the present one last. */
  datatype System = System(sh: Shared, procs: map<Pid, Proc>, history: seq<Shared>)

  const EMPTY := Shared(ScanDb(map[], {}, map[]), map[], {}, map[])
  const START := System(EMPTY, map[], [EMPTY])

  /** now: the clock reading of this step; beats: the scanner heartbeats it finds are recent enough. */
  datatype Event =
    | Begin(pid: Pid, call: Call)
    | Turn(pid: Pid, fate: Fate, now: Time, beats: bool, pick: Guid)
    | Crash(pid: Pid)
    | Upload(attachment: Guid, identity: Identity)
    | Vanish(attachment: Guid)
    | Objects(objects: map<Guid, Object>, owners: set<nat>)

  // ---- Reads of the bucket --------------------------------------------------

  predicate HeadMatches(sh: Shared, a: Guid, row: Object) { a in sh.bucket && sh.bucket[a] == row.identity }

  /** The bytes under the key, if they hash to the digest. */
  predicate ReceiptReads(sh: Shared, key: ReceiptKey) { key in sh.receipts && sh.receipts[key] == key.digest }

  function Evident(l: Lease, j: Job, v: Verdict): Evidence { Evidence(l.job, j.generation, j.identity.version, v) }

  // ---- Steps ----------------------------------------------------------------

  function First(call: Call): Pc {
    match call
    case Enqueue(_, _) => EnqueueRead
    case Claim(_, _, _) => ClaimExhaust
    case Renew(_, _) => RenewRead
    case Fail(_, _, _) => FailWrite
    case Complete(_, _) => AuthJob(None)
    case Serve(_) => ServeRow
    case Inspect(_) => InspectRow
  }

  function AwaitEnqueue(sh: Shared, a: Guid, now: Time, pc: Pc, e: Event): (Shared, Pc)
    requires e.Turn?
  {
    var seen := e.fate.Acked?;
    match pc
    case EnqueueRead =>
      (sh, if seen && ActiveAttachment(sh.db, a).Some? then EnqueueInsert(sh.db.objects[a].identity)
       else Over(NoAnswer))
    case EnqueueInsert(i) =>
      (if e.fate.Effective() then sh.(db := InsertJob(sh.db, a, i, now)) else sh,
       if seen then EnqueueReopen(i) else Over(NoAnswer))
    case EnqueueReopen(i) =>
      (if e.fate.Effective() then sh.(db := ReopenJob(sh.db, a, i, now)) else sh, Over(NoAnswer))
    case _ => (sh, pc)
  }

  function AwaitClaim(sh: Shared, scanner: nat, token: nat, now: Time, pc: Pc, e: Event): (Shared, Pc)
    requires e.Turn?
  {
    match pc
    case ClaimExhaust =>
      if !e.beats then (sh, Over(NoAnswer))
      else (if e.fate.Effective() then sh.(db := ExhaustLeases(sh.db, now)) else sh,
            if e.fate.Acked? then ClaimTake else Over(NoAnswer))
    case ClaimTake =>
      (if e.fate.Effective() && e.beats then sh.(db := ClaimJob(sh.db, e.pick, scanner, token, now).0) else sh,
       Over(NoAnswer))
    case _ => (sh, pc)
  }

  function AwaitRenew(sh: Shared, l: Lease, now: Time, pc: Pc, e: Event): (Shared, Pc)
    requires e.Turn?
  {
    match pc
    case RenewRead =>
      var job := AuthorizedJob(sh.db, l, now);
      (sh, if && e.fate.Acked? && e.beats && job.Some? && job.value.startedAt.Some?
              && RenewalEnd(job.value.startedAt.value, now) > now
           then RenewWrite(job.value.startedAt.value) else Over(NoAnswer))
    case RenewWrite(started) =>
      (if e.fate.Effective() then sh.(db := ExtendLease(sh.db, l, RenewalEnd(started, now), now)) else sh,
       Over(NoAnswer))
    case _ => (sh, pc)
  }

  /** The reads of authorizedScanObject, and what follows each time they succeed. */
  function AwaitAuth(sh: Shared, l: Lease, v: Verdict, pc: Pc, e: Event): Pc
    requires e.Turn?
  {
    var seen := e.fate.Acked?;
    match pc
    case AuthJob(stored) =>
      var job := AuthorizedJob(sh.db, l, e.now);
      if !seen then Over(Rejected)
      else if e.beats && job.Some? then AuthRow(stored, job.value)
      else if stored.None? then ReadCompleted else Over(Rejected)
    case AuthRow(stored, job) =>
      var row := ActiveAttachment(sh.db, l.job);
      if !seen then Over(Rejected)
      else if row.Some? && row.value.identity == job.identity then AuthHead(stored, job, row.value)
      else if stored.None? then ReadCompleted else Over(Rejected)
    case AuthHead(stored, job, row) =>
      if !seen then Over(Rejected)
      else if HeadMatches(sh, l.job, row) then AuthAgain(stored, job, row)
      else if stored.None? then ReadCompleted else Over(Rejected)
    case AuthAgain(stored, job, row) =>
      var again := AuthorizedJob(sh.db, l, e.now);
      var passed := && e.beats && again.Some?
        && again.value.identity.version == job.identity.version && again.value.identity.sha == job.identity.sha;
      if !seen then Over(Rejected)
      else if stored.None? then
        if !passed then ReadCompleted
        else if ValidVerdict(v, job.identity.sha, job.identity.size, e.now) then PutReceipt(job, Evident(l, job, v))
        else Over(Rejected)
      else if && passed && row.identity == stored.value.0.identity
              && ValidVerdict(v, stored.value.0.identity.sha, stored.value.0.identity.size, e.now)
      then Commit(stored.value.0, stored.value.1) else Over(Rejected)
    case _ => pc
  }

  function AwaitDuplicate(sh: Shared, l: Lease, v: Verdict, pc: Pc, e: Event): Pc
    requires e.Turn?
  {
    match pc
    case ReadCompleted =>
      var job := CompletedLease(sh.db, l);
      if e.fate.Acked? && job.Some? && ValidVerdict(v, job.value.identity.sha, job.value.identity.size, e.now)
      then DuplicateRow(job.value, Evident(l, job.value, v)) else Over(Rejected)
    case DuplicateRow(job, evidence) =>
      var row := ActiveAttachment(sh.db, l.job);
      if && e.fate.Acked? && row.Some? && row.value.identity == job.identity
         && job.result.Some? && job.result.value.digest == evidence
         && job.result.value.key == ReceiptKey(l.job, job.generation, evidence)
      then DuplicateHead(job, evidence, row.value) else Over(Rejected)
    case DuplicateHead(job, evidence, row) =>
      if e.fate.Acked? && HeadMatches(sh, l.job, row) then DuplicateReceipt(evidence) else Over(Rejected)
    case DuplicateReceipt(evidence) =>
      Over(if e.fate.Acked? && ReceiptReads(sh, ReceiptKey(l.job, evidence.generation, evidence)) then Duplicate
           else Rejected)
    case _ => pc
  }

  /** Store the receipt (never over another), check it, and publish it with the lease still held. */
  function AwaitPublish(sh: Shared, l: Lease, pc: Pc, e: Event): (Shared, Pc)
    requires e.Turn?
  {
    match pc
    case PutReceipt(job, evidence) =>
      var key := ReceiptKey(l.job, job.generation, evidence);
      if !e.beats then (sh, Over(Rejected))
      else (if e.fate.Effective() && key !in sh.receipts then sh.(receipts := sh.receipts[key := evidence]) else sh,
            if e.fate.Acked? then CheckReceipt(job, evidence) else Over(Rejected))
    case CheckReceipt(job, evidence) =>
      (sh, if e.fate.Acked? && ReceiptReads(sh, ReceiptKey(l.job, job.generation, evidence))
       then AuthJob(Some((job, evidence))) else Over(Rejected))
    case Commit(job, evidence) =>
      if !e.beats || l.generation != job.generation
      then (sh, if e.fate.Acked? then ReadWinner(evidence) else Over(Rejected))
      else
        var (db, done) := CommitResult(sh.db, l, evidence, e.now);
        (if e.fate.Effective() then sh.(db := db) else sh,
         if !e.fate.Acked? then Over(Rejected) else if done then Over(Completion) else ReadWinner(evidence))
    case ReadWinner(evidence) =>
      var job := CompletedLease(sh.db, l);
      (sh, Over(if && e.fate.Acked? && job.Some? && job.value.result.Some? && job.value.result.value.digest == evidence
                   && job.value.result.value.key == ReceiptKey(l.job, evidence.generation, evidence)
                then Duplicate else Rejected))
    case _ => (sh, pc)
  }

  predicate CleanFor(row: Object, a: Guid, job: Job) {
    && job.identity == row.identity && job.state == Completed && job.result.Some? && job.result.value.status == Clean
    && job.result.value.key == ReceiptKey(a, job.generation, job.result.value.digest)
  }

  predicate EvidenceFor(evidence: Evidence, row: Object, a: Guid, job: Job, now: Time)
    requires job.result.Some?
  {
    && evidence.job == a && evidence.generation == job.generation && evidence.version == row.identity.version
    && ValidVerdict(evidence.verdict, row.identity.sha, row.identity.size, now) && evidence.verdict.status == Clean
    && evidence.verdict.scannedAt == job.result.value.scannedAt
    && evidence.verdict.signatureAt == job.result.value.signatureAt
  }

  function AwaitServe(sh: Shared, a: Guid, instant: nat, pc: Pc, e: Event): Pc
    requires e.Turn?
  {
    if !e.fate.Acked? then Over(NoAnswer) else
    match pc
    case ServeRow =>
      var row := ActiveAttachment(sh.db, a);
      if row.Some? then ServeJob(row.value) else Over(NoAnswer)
    case ServeJob(row) =>
      var job := AttachmentJob(sh.db, a);
      if job.Some? && CleanFor(row, a, job.value) then ServeHead(row, job.value) else Over(NoAnswer)
    case ServeHead(row, job) => if HeadMatches(sh, a, row) then ServeReceipt(row, job) else Over(NoAnswer)
    case ServeReceipt(row, job) =>
      if && job.result.Some? && ReceiptReads(sh, job.result.value.key)
         && EvidenceFor(sh.receipts[job.result.value.key], row, a, job, e.now)
      then ServeAgain(row, job, sh.receipts[job.result.value.key]) else Over(NoAnswer)
    case ServeAgain(row, job, evidence) =>
      var again := AttachmentJob(sh.db, a);
      if && again.Some? && again.value.state == Completed && again.value.generation == job.generation
         && again.value.result.Some?
         && job.result.Some? && again.value.result.value.status == Clean
         && again.value.result.value.key == job.result.value.key
         && again.value.result.value.digest == job.result.value.digest
      then ServeLast(row, evidence, instant) else Over(NoAnswer)
    case ServeLast(row, evidence, k) =>
      Over(if HeadMatches(sh, a, row) && ValidVerdict(evidence.verdict, row.identity.sha, row.identity.size, e.now)
           then Served(row, evidence, k, instant, e.now) else NoAnswer)
    case _ => pc
  }

  predicate PolicyBlocked(job: Job) { job.state == Blocked && job.error == Some(ArchivePolicy) && job.result.None? }

  predicate InfectedFor(a: Guid, job: Job) {
    && job.state == Completed && job.result.Some? && job.result.value.status == Infected
    && job.result.value.key == ReceiptKey(a, job.generation, job.result.value.digest)
  }

  /** An infection does not age: its verdict is checked at the time of the scan, and only the future is refused. */
  predicate InfectionFor(evidence: Evidence, row: Object, a: Guid, job: Job, now: Time)
    requires job.result.Some?
  {
    var r := job.result.value;
    && evidence.job == a && evidence.generation == job.generation && evidence.version == row.identity.version
    && ValidVerdict(evidence.verdict, row.identity.sha, row.identity.size, r.scannedAt)
    && evidence.verdict.status == Infected
    && evidence.verdict.scannedAt == r.scannedAt && evidence.verdict.signatureAt == r.signatureAt
    && r.scannedAt <= now + SKEW && r.signatureAt <= now + SKEW
  }

  function AwaitInspect(sh: Shared, a: Guid, instant: nat, pc: Pc, e: Event): Pc
    requires e.Turn?
  {
    if !e.fate.Acked? then Over(NoAnswer) else
    match pc
    case InspectRow =>
      var row := ActiveAttachment(sh.db, a);
      if row.Some? then InspectJob(row.value) else Over(NoAnswer)
    case InspectJob(row) =>
      var job := AttachmentJob(sh.db, a);
      if job.Some? && job.value.identity == row.identity && (PolicyBlocked(job.value) || InfectedFor(a, job.value))
      then InspectHead(row, job.value) else Over(NoAnswer)
    case InspectHead(row, job) =>
      if !HeadMatches(sh, a, row) then Over(NoAnswer)
      else if InfectedFor(a, job) then InspectReceipt(row, job) else InspectHeadAgain(row, job)
    case InspectReceipt(row, job) =>
      if && job.result.Some? && ReceiptReads(sh, job.result.value.key)
         && InfectionFor(sh.receipts[job.result.value.key], row, a, job, e.now)
      then InspectHeadAgain(row, job) else Over(NoAnswer)
    case InspectHeadAgain(row, job) =>
      if HeadMatches(sh, a, row) then InspectRowAgain(row, job, instant) else Over(NoAnswer)
    case InspectRowAgain(row, job, saw) =>
      var again := ActiveAttachment(sh.db, a);
      if again.Some? && again.value.identity == job.identity && again.value.owner == row.owner
      then InspectJobAgain(row, job, saw) else Over(NoAnswer)
    case InspectJobAgain(row, job, saw) =>
      var again := AttachmentJob(sh.db, a);
      Over(if && again.Some? && again.value.identity == job.identity && again.value.generation == job.generation
              && again.value.state == job.state && again.value.error == job.error && again.value.result == job.result
           then Refused(row, saw, instant) else NoAnswer)
    case _ => pc
  }

  predicate IsAuth(pc: Pc) { pc.AuthJob? || pc.AuthRow? || pc.AuthHead? || pc.AuthAgain? }

  predicate IsPublish(pc: Pc) { pc.PutReceipt? || pc.CheckReceipt? || pc.Commit? || pc.ReadWinner? }

  function AwaitComplete(sh: Shared, l: Lease, v: Verdict, pc: Pc, e: Event): (Shared, Pc)
    requires e.Turn?
  {
    if IsAuth(pc) then (sh, AwaitAuth(sh, l, v, pc, e))
    else if IsPublish(pc) then AwaitPublish(sh, l, pc, e)
    else (sh, AwaitDuplicate(sh, l, v, pc, e))
  }

  function Await(sh: Shared, p: Proc, instant: nat, e: Event): (Shared, Pc)
    requires e.Turn?
  {
    if p.pc.Over? then (sh, p.pc) else
    match p.call
    case Enqueue(a, now) => AwaitEnqueue(sh, a, now, p.pc, e)
    case Claim(scanner, token, now) => AwaitClaim(sh, scanner, token, now, p.pc, e)
    case Renew(l, now) => AwaitRenew(sh, l, now, p.pc, e)
    case Fail(l, code, now) =>
      (if e.fate.Effective() then sh.(db := FailJob(sh.db, l, code, now).0) else sh, Over(NoAnswer))
    case Complete(l, v) => AwaitComplete(sh, l, v, p.pc, e)
    case Serve(a) => (sh, AwaitServe(sh, a, instant, p.pc, e))
    case Inspect(a) => (sh, AwaitInspect(sh, a, instant, p.pc, e))
  }

  /** The world outside: uploads always carry a version never used before. */
  function Outside(sh: Shared, e: Event): Shared
    requires e.Upload? || e.Vanish? || e.Objects?
  {
    match e
    case Upload(a, i) =>
      if i.version in sh.used then sh else sh.(bucket := sh.bucket[a := i], used := sh.used + {i.version})
    case Vanish(a) => sh.(bucket := sh.bucket - {a})
    case Objects(objects, owners) => sh.(db := sh.db.(objects := objects, owners := owners))
  }

  function Put(s: System, sh: Shared, pid: Pid, p: Proc): System {
    System(sh, s.procs[pid := p], s.history + [sh])
  }

  /** Index of the present state. */
  function Present(s: System): nat { if s.history == [] then 0 else |s.history| - 1 }

  function Step(s: System, e: Event): System {
    match e
    case Begin(pid, call) => if pid in s.procs then s else Put(s, s.sh, pid, Proc(call, |s.history|, First(call)))
    case Turn(pid, _, _, _, _) =>
      if pid !in s.procs then s else
      var (sh, pc) := Await(s.sh, s.procs[pid], Present(s), e);
      Put(s, sh, pid, s.procs[pid].Go(pc))
    case Crash(pid) =>
      if pid in s.procs && !s.procs[pid].pc.Over? then Put(s, s.sh, pid, s.procs[pid].Go(Over(NoAnswer))) else s
    case Upload(_, _) => var sh := Outside(s.sh, e); s.(sh := sh, history := s.history + [sh])
    case Vanish(_) => var sh := Outside(s.sh, e); s.(sh := sh, history := s.history + [sh])
    case Objects(_, _) => var sh := Outside(s.sh, e); s.(sh := sh, history := s.history + [sh])
  }

  function Run(s: System, es: seq<Event>): System
    decreases es
  {
    if es == [] then s else Run(Step(s, es[0]), es[1..])
  }

  // ---- The invariant -------------------------------------------------------

  /** A completed job points at a receipt that is there, under its own key, about this very object. */
  predicate Backed(sh: Shared, a: Guid, j: Job) {
    && j.result.Some?
    && var r := j.result.value;
       && r.key == ReceiptKey(a, j.generation, r.digest) && ReceiptReads(sh, r.key)
       && r.digest.job == a && r.digest.generation == j.generation && r.digest.version == j.identity.version
       && r.digest.verdict.sha == j.identity.sha && r.digest.verdict.size == j.identity.size
       && r.status == r.digest.verdict.status && r.scannedAt == r.digest.verdict.scannedAt
       && r.signatureAt == r.digest.verdict.signatureAt
  }

  ghost predicate SharedOk(sh: Shared) {
    && JobsOk(sh.db)
    && (forall a | a in sh.bucket :: sh.bucket[a].version in sh.used)
    && (forall a | a in sh.db.jobs && sh.db.jobs[a].state == Completed :: Backed(sh, a, sh.db.jobs[a]))
  }

  /** How the shared state may change over time. */
  ghost predicate LaterShared(x: Shared, y: Shared) {
    && JobsMoveOn(x.db, y.db)
    && (forall k | k in x.receipts :: k in y.receipts && y.receipts[k] == x.receipts[k])
    && x.used <= y.used
    && (forall a | a in y.bucket :: (a in x.bucket && x.bucket[a] == y.bucket[a]) || y.bucket[a].version !in x.used)
  }

  /** The job was read in this generation; it may have been superseded since. */
  predicate Knows(sh: Shared, a: Guid, j: Job) {
    a in sh.db.jobs && (sh.db.jobs[a].generation > j.generation
                        || (sh.db.jobs[a].generation == j.generation && sh.db.jobs[a].identity == j.identity))
  }

  /** A completed job was read; it is still the same row unless superseded. */
  predicate KnowsDone(sh: Shared, a: Guid, j: Job) {
    a in sh.db.jobs && j.state == Completed && (sh.db.jobs[a].generation > j.generation || sh.db.jobs[a] == j)
  }

  predicate Gone(sh: Shared, a: Guid, version: nat) {
    version in sh.used && (a in sh.bucket ==> sh.bucket[a].version != version)
  }

  /** The bytes were seen in the bucket; either they are still there or they never return. */
  predicate SawBytes(sh: Shared, a: Guid, i: Identity) {
    i.version in sh.used && ((a in sh.bucket && sh.bucket[a] == i) || Gone(sh, a, i.version))
  }

  predicate Prepared(sh: Shared, l: Lease, v: Verdict, j: Job, evidence: Evidence) {
    && Knows(sh, l.job, j) && evidence == Evident(l, j, v) && v.sha == j.identity.sha && v.size == j.identity.size
  }

  predicate PreparedAndStored(sh: Shared, l: Lease, v: Verdict, j: Job, evidence: Evidence) {
    Prepared(sh, l, v, j, evidence) && ReceiptReads(sh, ReceiptKey(l.job, j.generation, evidence))
  }

  /** The rows say: this live object has a committed clean verdict, and its receipt is what was committed. */
  predicate CommittedClean(sh: Shared, a: Guid, row: Object, evidence: Evidence) {
    && sh.db.LiveAs(a, row.identity) && a in sh.db.jobs
    && var j := sh.db.jobs[a];
       && j.identity == row.identity && j.state == Completed && Backed(sh, a, j)
       && j.result.value.status == Clean && j.result.value.digest == evidence
  }

  /** ... and the bucket holds exactly those bytes. */
  predicate CleanInstant(sh: Shared, a: Guid, row: Object, evidence: Evidence) {
    CommittedClean(sh, a, row, evidence) && HeadMatches(sh, a, row)
  }

  ghost predicate CompleteOk(sh: Shared, l: Lease, v: Verdict, pc: Pc) {
    match pc
    case AuthJob(stored) => stored.Some? ==> PreparedAndStored(sh, l, v, stored.value.0, stored.value.1)
    case AuthRow(stored, job) =>
      if stored.None? then Knows(sh, l.job, job) else PreparedAndStored(sh, l, v, stored.value.0, stored.value.1)
    case AuthHead(stored, job, _) =>
      if stored.None? then Knows(sh, l.job, job) else PreparedAndStored(sh, l, v, stored.value.0, stored.value.1)
    case AuthAgain(stored, job, _) =>
      if stored.None? then Knows(sh, l.job, job) else PreparedAndStored(sh, l, v, stored.value.0, stored.value.1)
    case PutReceipt(job, evidence) => Prepared(sh, l, v, job, evidence)
    case CheckReceipt(job, evidence) => Prepared(sh, l, v, job, evidence)
    case Commit(job, evidence) => PreparedAndStored(sh, l, v, job, evidence)
    case _ => true
  }

  ghost predicate ServeOk(sh: Shared, history: seq<Shared>, a: Guid, began: nat, pc: Pc) {
    match pc
    case ServeHead(row, job) => CleanFor(row, a, job) && KnowsDone(sh, a, job)
    case ServeReceipt(row, job) => CleanFor(row, a, job) && KnowsDone(sh, a, job) && SawBytes(sh, a, row.identity)
    case ServeAgain(row, job, evidence) =>
      CleanFor(row, a, job) && KnowsDone(sh, a, job) && SawBytes(sh, a, row.identity)
        && job.result.value.digest == evidence
    case ServeLast(row, evidence, k) =>
      && began <= k < |history| && CommittedClean(history[k], a, row, evidence)
      && (HeadMatches(history[k], a, row) || Gone(sh, a, row.identity.version))
    case Over(answer) =>
      answer.Served? ==>
        && began <= answer.instant <= answer.ended < |history|
        && CleanInstant(history[answer.instant], a, answer.row, answer.evidence)
        && ValidVerdict(answer.evidence.verdict, answer.row.identity.sha, answer.row.identity.size, answer.at)
    case _ => true
  }

  /** The rows say: this live object was refused by policy, or is infected by a backed verdict. */
  predicate CommittedNegative(sh: Shared, a: Guid, row: Object) {
    && sh.db.LiveAs(a, row.identity) && a in sh.db.jobs && sh.db.jobs[a].identity == row.identity
    && (PolicyBlocked(sh.db.jobs[a]) || (InfectedFor(a, sh.db.jobs[a]) && Backed(sh, a, sh.db.jobs[a])))
  }

  ghost predicate InspectOk(history: seq<Shared>, a: Guid, began: nat, pc: Pc) {
    match pc
    case InspectHead(row, job) => job.identity == row.identity && (PolicyBlocked(job) || InfectedFor(a, job))
    case InspectReceipt(row, job) => job.identity == row.identity && InfectedFor(a, job)
    case InspectHeadAgain(row, job) => job.identity == row.identity && (PolicyBlocked(job) || InfectedFor(a, job))
    case InspectRowAgain(row, job, saw) =>
      && job.identity == row.identity && (PolicyBlocked(job) || InfectedFor(a, job))
      && began <= saw < |history| && HeadMatches(history[saw], a, row)
    case InspectJobAgain(row, job, saw) =>
      && job.identity == row.identity && (PolicyBlocked(job) || InfectedFor(a, job))
      && began <= saw < |history| && HeadMatches(history[saw], a, row)
    case Over(answer) =>
      answer.Refused? ==>
        && began <= answer.seen <= answer.ended < |history| && HeadMatches(history[answer.seen], a, answer.row)
        && CommittedNegative(history[answer.ended], a, answer.row)
    case _ => true
  }

  ghost predicate RenewOk(sh: Shared, l: Lease, pc: Pc) {
    pc.RenewWrite? ==>
      && l.job in sh.db.jobs
      && (sh.db.jobs[l.job].generation > l.generation
          || (sh.db.jobs[l.job].generation == l.generation && sh.db.jobs[l.job].startedAt == Some(pc.started)))
  }

  ghost predicate ProcOk(sh: Shared, history: seq<Shared>, p: Proc) {
    && p.began <= |history|
    && match p.call
       case Renew(l, _) => RenewOk(sh, l, p.pc)
       case Complete(l, v) => CompleteOk(sh, l, v, p.pc)
       case Serve(a) => p.began < |history| && ServeOk(sh, history, a, p.began, p.pc)
       case Inspect(a) => p.began < |history| && InspectOk(history, a, p.began, p.pc)
       case _ => true
  }

  ghost predicate Inv(s: System) {
    && SharedOk(s.sh)
    && |s.history| > 0 && s.history[|s.history| - 1] == s.sh
    && forall pid | pid in s.procs :: ProcOk(s.sh, s.history, s.procs[pid])
  }

  // ---- What a process knows survives what others do ------------------------

  lemma CompleteStaysOk(x: Shared, y: Shared, l: Lease, v: Verdict, pc: Pc)
    requires LaterShared(x, y) && CompleteOk(x, l, v, pc)
    ensures CompleteOk(y, l, v, pc)
  {}

  lemma ServeStaysOk(x: Shared, y: Shared, history: seq<Shared>, a: Guid, began: nat, pc: Pc)
    requires LaterShared(x, y) && ServeOk(x, history, a, began, pc)
    ensures ServeOk(y, history + [y], a, began, pc)
  {}

  lemma ProcStaysOk(x: Shared, y: Shared, history: seq<Shared>, p: Proc)
    requires LaterShared(x, y) && ProcOk(x, history, p)
    ensures ProcOk(y, history + [y], p)
  {
    match p.call
    case Renew(l, _) =>
    case Complete(l, v) => CompleteStaysOk(x, y, l, v, p.pc);
    case Serve(a) => ServeStaysOk(x, y, history, a, p.began, p.pc);
    case _ =>
  }

  /** The shared state moved on and one process took a step that is in order. */
  lemma Assemble(s: System, sh: Shared, pid: Pid, p: Proc)
    requires Inv(s) && SharedOk(sh) && LaterShared(s.sh, sh) && ProcOk(sh, s.history + [sh], p)
    ensures Inv(Put(s, sh, pid, p))
  {
    var s' := Put(s, sh, pid, p);
    forall q | q in s'.procs ensures ProcOk(s'.sh, s'.history, s'.procs[q]) {
      if q != pid { ProcStaysOk(s.sh, sh, s.history, s.procs[q]); }
    }
  }

  lemma OutsideKeepsInv(s: System, e: Event)
    requires Inv(s) && (e.Upload? || e.Vanish? || e.Objects?)
    ensures Inv(Step(s, e)) && LaterShared(s.sh, Step(s, e).sh)
  {
    var sh := Outside(s.sh, e);
    assert LaterShared(s.sh, sh);
    var s' := Step(s, e);
    forall q | q in s'.procs
      ensures ProcOk(s'.sh, s'.history, s'.procs[q])
    {
      ProcStaysOk(s.sh, sh, s.history, s.procs[q]);
    }
  }

  // ---- Each kind of call ----------------------------------------------------

  /** Rows only: nothing but the jobs moved on, and what completed is unchanged. */
  lemma RowsMoveOn(x: Shared, db: ScanDb)
    requires SharedOk(x) && JobsOk(db) && JobsMoveOn(x.db, db) && CompletesNone(x.db, db)
    ensures SharedOk(x.(db := db)) && LaterShared(x, x.(db := db))
  {}

  lemma EnqueueTurn(x: Shared, a: Guid, now: Time, pc: Pc, e: Event)
    requires SharedOk(x) && e.Turn?
    ensures var (y, _) := AwaitEnqueue(x, a, now, pc, e); SharedOk(y) && LaterShared(x, y)
  {
    if pc.EnqueueInsert? {
      InsertMovesOn(x.db, a, pc.seen, now);
      RowsMoveOn(x, InsertJob(x.db, a, pc.seen, now));
    } else if pc.EnqueueReopen? {
      ReopenMovesOn(x.db, a, pc.seen, now);
      RowsMoveOn(x, ReopenJob(x.db, a, pc.seen, now));
    }
  }

  lemma ExhaustTurn(x: Shared, now: Time)
    requires SharedOk(x)
    ensures var y := x.(db := ExhaustLeases(x.db, now)); SharedOk(y) && LaterShared(x, y)
  {}

  lemma TakeTurn(x: Shared, pick: Guid, scanner: nat, token: nat, now: Time)
    requires SharedOk(x)
    ensures var y := x.(db := ClaimJob(x.db, pick, scanner, token, now).0); SharedOk(y) && LaterShared(x, y)
  {}

  lemma ClaimTurn(x: Shared, scanner: nat, token: nat, now: Time, pc: Pc, e: Event)
    requires SharedOk(x) && e.Turn?
    ensures var (y, _) := AwaitClaim(x, scanner, token, now, pc, e); SharedOk(y) && LaterShared(x, y)
  {
    ExhaustTurn(x, now);
    TakeTurn(x, e.pick, scanner, token, now);
  }

  lemma RenewTurn(x: Shared, l: Lease, now: Time, pc: Pc, e: Event)
    requires SharedOk(x) && e.Turn? && RenewOk(x, l, pc)
    ensures var (y, _) := AwaitRenew(x, l, now, pc, e); SharedOk(y) && LaterShared(x, y)
  {
    if pc.RenewWrite? {
      ExtendMovesOn(x.db, l, pc.started, now);
      RowsMoveOn(x, ExtendLease(x.db, l, RenewalEnd(pc.started, now), now));
    }
  }

  lemma RenewStaysOk(x: Shared, l: Lease, now: Time, pc: Pc, e: Event)
    requires e.Turn? && RenewOk(x, l, pc)
    ensures var (y, pc') := AwaitRenew(x, l, now, pc, e); RenewOk(y, l, pc')
  {}

  lemma FailTurn(x: Shared, l: Lease, code: ErrorCode, now: Time)
    requires SharedOk(x)
    ensures var y := x.(db := FailJob(x.db, l, code, now).0); SharedOk(y) && LaterShared(x, y)
  {}

  lemma AuthTurn(x: Shared, l: Lease, v: Verdict, pc: Pc, e: Event)
    requires e.Turn? && IsAuth(pc) && CompleteOk(x, l, v, pc)
    ensures CompleteOk(x, l, v, AwaitAuth(x, l, v, pc, e))
  {}

  /** A published verdict rests on a stored receipt about the object the job still names. */
  lemma CommitTurn(x: Shared, l: Lease, v: Verdict, j: Job, evidence: Evidence, now: Time)
    requires SharedOk(x) && PreparedAndStored(x, l, v, j, evidence) && l.generation == j.generation
    ensures var y := x.(db := CommitResult(x.db, l, evidence, now).0); SharedOk(y) && LaterShared(x, y)
  {}

  lemma ReceiptTurn(x: Shared, key: ReceiptKey)
    requires SharedOk(x) && key !in x.receipts
    ensures var y := x.(receipts := x.receipts[key := key.digest]); SharedOk(y) && LaterShared(x, y)
  {}

  lemma PublishTurn(x: Shared, l: Lease, v: Verdict, pc: Pc, e: Event)
    requires SharedOk(x) && e.Turn? && IsPublish(pc) && CompleteOk(x, l, v, pc)
    ensures var (y, _) := AwaitPublish(x, l, pc, e); SharedOk(y) && LaterShared(x, y)
  {
    if pc.PutReceipt? {
      var key := ReceiptKey(l.job, pc.job.generation, pc.evidence);
      if key !in x.receipts { ReceiptTurn(x, key); }
    } else if pc.Commit? && l.generation == pc.job.generation {
      CommitTurn(x, l, v, pc.job, pc.evidence, e.now);
    }
  }

  lemma PublishStaysOk(x: Shared, l: Lease, v: Verdict, pc: Pc, e: Event)
    requires e.Turn? && IsPublish(pc) && CompleteOk(x, l, v, pc)
    ensures var (y, pc') := AwaitPublish(x, l, pc, e); CompleteOk(y, l, v, pc')
  {}

  lemma CompleteTurn(x: Shared, l: Lease, v: Verdict, pc: Pc, e: Event)
    requires SharedOk(x) && e.Turn? && CompleteOk(x, l, v, pc)
    ensures var (y, pc') := AwaitComplete(x, l, v, pc, e); SharedOk(y) && LaterShared(x, y) && CompleteOk(y, l, v, pc')
  {
    if IsAuth(pc) { AuthTurn(x, l, v, pc, e); }
    else if IsPublish(pc) { PublishTurn(x, l, v, pc, e); PublishStaysOk(x, l, v, pc, e); }
  }

  /** Equal generations at the two job reads: the completed row did not change in between. */
  lemma SecondReadIsTheFirst(x: Shared, a: Guid, row: Object, job: Job, evidence: Evidence)
    requires SharedOk(x) && CleanFor(row, a, job) && KnowsDone(x, a, job) && job.result.value.digest == evidence
    requires x.db.Current(a) && x.db.jobs[a].generation == job.generation
    ensures x.db.jobs[a] == job && CommittedClean(x, a, row, evidence)
  {}

  lemma ServeTurn(s: System, a: Guid, began: nat, pc: Pc, e: Event)
    requires Inv(s) && e.Turn? && began < |s.history| && ServeOk(s.sh, s.history, a, began, pc)
    ensures ServeOk(s.sh, s.history + [s.sh], a, began, AwaitServe(s.sh, a, Present(s), pc, e))
  {
    var x := s.sh;
    if pc.ServeAgain? && x.db.Current(a) && x.db.jobs[a].generation == pc.job.generation {
      SecondReadIsTheFirst(x, a, pc.row, pc.job, pc.evidence);
    }
    if pc.ServeReceipt? && pc.job.result.Some? { assert pc.job.result.value.key.digest == pc.job.result.value.digest; }
  }

  lemma InspectTurn(s: System, a: Guid, began: nat, pc: Pc, e: Event)
    requires Inv(s) && e.Turn? && began < |s.history| && InspectOk(s.history, a, began, pc)
    ensures InspectOk(s.history + [s.sh], a, began, AwaitInspect(s.sh, a, Present(s), pc, e))
  {
    var x := s.sh;
    if pc.InspectJobAgain? && x.db.Current(a) && x.db.jobs[a].state == Completed { assert Backed(x, a, x.db.jobs[a]); }
  }

  lemma AwaitIsInOrder(s: System, p: Proc, e: Event)
    requires Inv(s) && ProcOk(s.sh, s.history, p) && e.Turn?
    ensures var (sh, pc) := Await(s.sh, p, Present(s), e);
      SharedOk(sh) && LaterShared(s.sh, sh) && ProcOk(sh, s.history + [sh], p.Go(pc))
  {
    if p.pc.Over? {
      ProcStaysOk(s.sh, s.sh, s.history, p);
    } else {
      match p.call
      case Enqueue(a, now) => EnqueueTurn(s.sh, a, now, p.pc, e);
      case Claim(scanner, token, now) => ClaimTurn(s.sh, scanner, token, now, p.pc, e);
      case Renew(l, now) => RenewTurn(s.sh, l, now, p.pc, e); RenewStaysOk(s.sh, l, now, p.pc, e);
      case Fail(l, code, now) => FailTurn(s.sh, l, code, now);
      case Complete(l, v) => CompleteTurn(s.sh, l, v, p.pc, e);
      case Serve(a) => ServeTurn(s, a, p.began, p.pc, e);
      case Inspect(a) => InspectTurn(s, a, p.began, p.pc, e);
    }
  }

  lemma TurnKeepsInv(s: System, pid: Pid, e: Event)
    requires Inv(s) && pid in s.procs && e.Turn? && e.pid == pid
    ensures Inv(Step(s, e)) && LaterShared(s.sh, Step(s, e).sh)
  {
    var p := s.procs[pid];
    AwaitIsInOrder(s, p, e);
    var (sh, pc) := Await(s.sh, p, Present(s), e);
    Assemble(s, sh, pid, p.Go(pc));
  }

  lemma StepKeepsInv(s: System, e: Event)
    requires Inv(s)
    ensures Inv(Step(s, e)) && LaterShared(s.sh, Step(s, e).sh)
  {
    match e
    case Begin(pid, call) => if pid !in s.procs { Assemble(s, s.sh, pid, Proc(call, |s.history|, First(call))); }
    case Turn(pid, _, _, _, _) => if pid in s.procs { TurnKeepsInv(s, pid, e); }
    case Crash(pid) =>
      if pid in s.procs && !s.procs[pid].pc.Over? {
        assert ProcOk(s.sh, s.history, s.procs[pid]);
        Assemble(s, s.sh, pid, s.procs[pid].Go(Over(NoAnswer)));
      }
    case Upload(_, _) => OutsideKeepsInv(s, e);
    case Vanish(_) => OutsideKeepsInv(s, e);
    case Objects(_, _) => OutsideKeepsInv(s, e);
  }

  lemma {:induction false} RunKeepsInv(s: System, es: seq<Event>)
    requires Inv(s)
    ensures Inv(Run(s, es))
    decreases es
  {
    if es != [] {
      StepKeepsInv(s, es[0]);
      RunKeepsInv(Step(s, es[0]), es[1..]);
    }
  }

  // ---- Main results --------------------------------------------------------

  /**
   * A served attachment was clean at one instant within the call: then its row
   * was live, its job had a committed clean verdict about exactly that version,
   * hash and size, the receipt held what was committed, and the bucket held
   * those bytes. The verdict was still recent at the last clock reading.
   */
  lemma ServedMeansClean(es: seq<Event>, pid: Pid)
    requires var s := Run(START, es);
      pid in s.procs && s.procs[pid].call.Serve? && s.procs[pid].pc.Over? && s.procs[pid].pc.answer.Served?
    ensures
      var s := Run(START, es);
      var p := s.procs[pid];
      var answer := p.pc.answer;
      && p.began <= answer.instant <= answer.ended < |s.history|
      && CleanInstant(s.history[answer.instant], p.call.attachment, answer.row, answer.evidence)
      && ValidVerdict(answer.evidence.verdict, answer.row.identity.sha, answer.row.identity.size, answer.at)
  {
    RunKeepsInv(START, es);
    var s := Run(START, es);
    assert ProcOk(s.sh, s.history, s.procs[pid]);
  }

  /**
   * A refused attachment was negative at its last read: the rows then named it
   * live with a policy block or a backed infected verdict, and the bucket had
   * held exactly those bytes at an earlier instant within the call.
   */
  lemma RefusedMeansNegative(es: seq<Event>, pid: Pid)
    requires var s := Run(START, es);
      pid in s.procs && s.procs[pid].call.Inspect? && s.procs[pid].pc.Over? && s.procs[pid].pc.answer.Refused?
    ensures
      var s := Run(START, es);
      var p := s.procs[pid];
      var answer := p.pc.answer;
      && p.began <= answer.seen <= answer.ended < |s.history|
      && HeadMatches(s.history[answer.seen], p.call.attachment, answer.row)
      && CommittedNegative(s.history[answer.ended], p.call.attachment, answer.row)
  {
    RunKeepsInv(START, es);
    var s := Run(START, es);
    assert ProcOk(s.sh, s.history, s.procs[pid]);
  }

  /** In every run a completed job has its receipt, under its own key and about its own object. */
  lemma CompletedJobsAreBacked(es: seq<Event>, a: Guid)
    requires a in Run(START, es).sh.db.jobs && Run(START, es).sh.db.jobs[a].state == Completed
    ensures Backed(Run(START, es).sh, a, Run(START, es).sh.db.jobs[a])
  {
    RunKeepsInv(START, es);
  }

  lemma LaterSharedIsTransitive(x: Shared, y: Shared, z: Shared)
    requires LaterShared(x, y) && LaterShared(y, z)
    ensures LaterShared(x, z)
  {}

  /** Receipts are never overwritten, versions never return, and jobs only move on. */
  lemma {:induction false} RunMovesOn(s: System, es: seq<Event>)
    requires Inv(s)
    ensures LaterShared(s.sh, Run(s, es).sh)
    decreases es
  {
    if es != [] {
      StepKeepsInv(s, es[0]);
      RunMovesOn(Step(s, es[0]), es[1..]);
      LaterSharedIsTransitive(s.sh, Step(s, es[0]).sh, Run(s, es).sh);
    }
  }

  /** Receipts are never overwritten. */
  lemma ReceiptsAreImmutable(es: seq<Event>, more: seq<Event>, key: ReceiptKey)
    requires key in Run(START, es).sh.receipts
    ensures key in Run(Run(START, es), more).sh.receipts
    ensures Run(Run(START, es), more).sh.receipts[key] == Run(START, es).sh.receipts[key]
  {
    RunKeepsInv(START, es);
    RunMovesOn(Run(START, es), more);
  }

  /** Attempts never exceed five and a pending job has one left; a lease ends within ten minutes of its claim. */
  lemma AttemptsAndWindowsAreBounded(es: seq<Event>, a: Guid)
    requires a in Run(START, es).sh.db.jobs
    ensures
      var j := Run(START, es).sh.db.jobs[a];
      && j.attempts <= MAX_ATTEMPTS && (j.state == Pending ==> j.attempts < MAX_ATTEMPTS)
      && (j.state == Leased ==>
            j.expiresAt.Some? && j.startedAt.Some? && j.expiresAt.value <= j.startedAt.value + MAX_LEASE)
  {
    RunKeepsInv(START, es);
    assert JobOk(Run(START, es).sh.db.jobs[a]);
  }

  /** A lease lost to failure, completion or takeover never authorises again, whatever the clocks say. */
  lemma LostLeaseNeverReturns(es: seq<Event>, more: seq<Event>, l: Lease, now: Time)
    requires l.job in Run(START, es).sh.db.jobs && Lost(Run(START, es).sh.db.jobs[l.job], l)
    ensures !Holds(Run(Run(START, es), more).sh.db, l, now)
  {
    RunKeepsInv(START, es);
    var s := Run(START, es);
    RunMovesOn(s, more);
    LostStaysLost(s.sh.db.jobs[l.job], Run(s, more).sh.db.jobs[l.job], l, now);
  }

  /** A renewal of this lease that took effect only after the lease had run out. */
  predicate LateRenewal(s: System, e: Event, l: Lease, t: Time) {
    && e.Turn? && e.fate.Effective() && e.pid in s.procs && s.procs[e.pid].pc.RenewWrite?
    && s.procs[e.pid].call.Renew? && s.procs[e.pid].call.lease == l
    && Holds(s.sh.db, l, s.procs[e.pid].call.now)
    && RenewalEnd(s.procs[e.pid].pc.started, s.procs[e.pid].call.now) > t
  }

  /** The row is as it was for this lease, or the lease is lost. */
  predicate KeptOrLost(y: Shared, l: Lease, x: Time) {
    l.job in y.db.jobs && (Lost(y.db.jobs[l.job], l) || LeasedUntil(y.db.jobs[l.job], l, x))
  }

  lemma QueueCallsKeepOrLose(sh: Shared, p: Proc, instant: nat, e: Event, l: Lease, x: Time)
    requires KeptOrLost(sh, l, x) && LeasedUntil(sh.db.jobs[l.job], l, x) && e.Turn?
    requires p.call.Enqueue? || p.call.Claim?
    ensures KeptOrLost(Await(sh, p, instant, e).0, l, x)
  {}

  lemma OtherCallsKeepOrLose(sh: Shared, p: Proc, instant: nat, e: Event, l: Lease, x: Time)
    requires KeptOrLost(sh, l, x) && LeasedUntil(sh.db.jobs[l.job], l, x) && e.Turn?
    requires !(p.call.Renew? && p.call.lease == l && p.pc.RenewWrite? && e.fate.Effective()
               && Holds(sh.db, l, p.call.now))
    ensures KeptOrLost(Await(sh, p, instant, e).0, l, x)
  {
    if p.call.Enqueue? || p.call.Claim? { QueueCallsKeepOrLose(sh, p, instant, e, l, x); }
  }

  lemma RenewalExtends(sh: Shared, p: Proc, instant: nat, e: Event, l: Lease)
    requires JobsOk(sh.db) && RenewOk(sh, l, p.pc) && e.Turn? && e.fate.Effective()
    requires p.call.Renew? && p.call.lease == l && p.pc.RenewWrite? && Holds(sh.db, l, p.call.now)
    ensures
      var end := RenewalEnd(p.pc.started, p.call.now);
      var y := Await(sh, p, instant, e).0;
      if end > p.pc.started then KeptOrLost(y, l, end) && LeasedUntil(y.db.jobs[l.job], l, end) else y.db == sh.db
  {}

  /**
   * When an expired lease acts again: exactly when a renewal that had read its
   * clock before the expiry is written after it.
   */
  lemma ExpiredLeaseRevivesIff(s: System, e: Event, l: Lease, t: Time)
    requires Inv(s) && l.job in s.sh.db.jobs
    requires s.sh.db.jobs[l.job].expiresAt.Some?
    requires LeasedUntil(s.sh.db.jobs[l.job], l, s.sh.db.jobs[l.job].expiresAt.value)
    requires s.sh.db.jobs[l.job].Expired(t)
    ensures l.job in Step(s, e).sh.db.jobs
    ensures Authorises(Step(s, e).sh.db.jobs[l.job], l, t) <==> LateRenewal(s, e, l, t)
  {
    var x := s.sh.db.jobs[l.job].expiresAt.value;
    assert JobOk(s.sh.db.jobs[l.job]);
    if e.Turn? && e.pid in s.procs {
      var p := s.procs[e.pid];
      assert ProcOk(s.sh, s.history, p);
      if p.call.Renew? && p.call.lease == l && p.pc.RenewWrite? && e.fate.Effective() && Holds(s.sh.db, l, p.call.now) {
        RenewalExtends(s.sh, p, Present(s), e, l);
      } else {
        OtherCallsKeepOrLose(s.sh, p, Present(s), e, l, x);
      }
    }
  }

  /** No renewal of this lease read its clock before the given time. */
  ghost predicate NoEarlyRenewal(s: System, l: Lease, x: Time) {
    forall pid | pid in s.procs && s.procs[pid].call.Renew? && s.procs[pid].call.lease == l ::
      s.procs[pid].call.now >= x
  }

  predicate LateCalls(es: seq<Event>, l: Lease, x: Time) {
    forall e | e in es && e.Begin? && e.call.Renew? && e.call.lease == l :: e.call.now >= x
  }

  lemma StepStaysExpired(s: System, e: Event, l: Lease, x: Time)
    requires Inv(s) && NoEarlyRenewal(s, l, x) && KeptOrLost(s.sh, l, x)
    ensures KeptOrLost(Step(s, e).sh, l, x)
  {
    StepKeepsInv(s, e);
    var s1 := Step(s, e);
    if Lost(s.sh.db.jobs[l.job], l) {
      LostStaysLost(s.sh.db.jobs[l.job], s1.sh.db.jobs[l.job], l, x);
    } else if e.Turn? && e.pid in s.procs {
      OtherCallsKeepOrLose(s.sh, s.procs[e.pid], Present(s), e, l, x);
    }
  }

  lemma RenewalsStayLate(s: System, e: Event, l: Lease, x: Time)
    requires NoEarlyRenewal(s, l, x) && LateCalls([e], l, x)
    ensures NoEarlyRenewal(Step(s, e), l, x)
  {}

  lemma {:induction false} ExpiredStaysExpired(s: System, es: seq<Event>, l: Lease, x: Time)
    requires Inv(s) && NoEarlyRenewal(s, l, x) && LateCalls(es, l, x) && KeptOrLost(s.sh, l, x)
    ensures KeptOrLost(Run(s, es).sh, l, x)
    decreases es
  {
    if es != [] {
      StepKeepsInv(s, es[0]);
      StepStaysExpired(s, es[0], l, x);
      RenewalsStayLate(s, es[0], l, x);
      ExpiredStaysExpired(Step(s, es[0]), es[1..], l, x);
    }
  }

  /**
   * An expired lease never authorises again, provided every renewal of it that
   * is in flight or still to come reads its clock after the expiry.
   */
  lemma ExpiredLeaseNeverReturns(es: seq<Event>, more: seq<Event>, l: Lease, x: Time, t: Time)
    requires l.job in Run(START, es).sh.db.jobs && LeasedUntil(Run(START, es).sh.db.jobs[l.job], l, x)
    requires NoEarlyRenewal(Run(START, es), l, x) && LateCalls(more, l, x) && x <= t
    ensures !Holds(Run(Run(START, es), more).sh.db, l, t)
  {
    RunKeepsInv(START, es);
    ExpiredStaysExpired(Run(START, es), more, l, x);
  }

  /** Infected and blocked verdicts. */
  predicate Negative(j: Job) {
    j.state == Blocked || (j.state == Completed && j.result.Some? && j.result.value.status == Infected)
  }

  /** In every state of the run the attachment's row, if there is one, names these bytes. */
  ghost predicate SameObjectThroughout(s: System, es: seq<Event>, a: Guid, i: Identity)
    decreases es
  {
    && (a in s.sh.db.objects ==> s.sh.db.objects[a].identity == i)
    && (es != [] ==> SameObjectThroughout(Step(s, es[0]), es[1..], a, i))
  }

  /** Nothing happened to this job. */
  predicate Untouched(x: Shared, y: Shared, a: Guid) {
    a in x.db.jobs && a in y.db.jobs && y.db.jobs[a] == x.db.jobs[a]
  }

  predicate NegativeHere(x: Shared, a: Guid) {
    && a in x.db.jobs && Negative(x.db.jobs[a])
    && (a in x.db.objects ==> x.db.objects[a].identity == x.db.jobs[a].identity)
  }

  lemma EnqueueKeepsNegative(x: Shared, b: Guid, now: Time, pc: Pc, e: Event, a: Guid)
    requires NegativeHere(x, a) && e.Turn?
    ensures Untouched(x, AwaitEnqueue(x, b, now, pc, e).0, a)
  {}

  lemma ClaimKeepsNegative(x: Shared, scanner: nat, token: nat, now: Time, pc: Pc, e: Event, a: Guid)
    requires NegativeHere(x, a) && e.Turn?
    ensures Untouched(x, AwaitClaim(x, scanner, token, now, pc, e).0, a)
  {}

  lemma RenewKeepsNegative(x: Shared, l: Lease, now: Time, pc: Pc, e: Event, a: Guid)
    requires NegativeHere(x, a) && e.Turn?
    ensures Untouched(x, AwaitRenew(x, l, now, pc, e).0, a)
  {}

  lemma CompleteKeepsNegative(x: Shared, l: Lease, v: Verdict, pc: Pc, e: Event, a: Guid)
    requires NegativeHere(x, a) && e.Turn?
    ensures Untouched(x, AwaitComplete(x, l, v, pc, e).0, a)
  {}

  lemma FailKeepsNegative(x: Shared, l: Lease, code: ErrorCode, now: Time, a: Guid)
    requires NegativeHere(x, a)
    ensures Untouched(x, x.(db := FailJob(x.db, l, code, now).0), a)
  {}

  lemma StepKeepsNegative(s: System, e: Event, a: Guid)
    requires NegativeHere(s.sh, a)
    ensures Untouched(s.sh, Step(s, e).sh, a)
  {
    if e.Turn? && e.pid in s.procs {
      var p := s.procs[e.pid];
      match p.call
      case Enqueue(b, now) => EnqueueKeepsNegative(s.sh, b, now, p.pc, e, a);
      case Claim(scanner, token, now) => ClaimKeepsNegative(s.sh, scanner, token, now, p.pc, e, a);
      case Renew(l, now) => RenewKeepsNegative(s.sh, l, now, p.pc, e, a);
      case Fail(l, code, now) => FailKeepsNegative(s.sh, l, code, now, a);
      case Complete(l, v) => CompleteKeepsNegative(s.sh, l, v, p.pc, e, a);
      case _ =>
    }
  }

  lemma {:induction false} RunKeepsNegative(s: System, es: seq<Event>, a: Guid)
    requires Inv(s) && a in s.sh.db.jobs && Negative(s.sh.db.jobs[a])
    requires SameObjectThroughout(s, es, a, s.sh.db.jobs[a].identity)
    ensures a in Run(s, es).sh.db.jobs && Run(s, es).sh.db.jobs[a] == s.sh.db.jobs[a]
    decreases es
  {
    if es != [] {
      StepKeepsInv(s, es[0]);
      StepKeepsNegative(s, es[0], a);
      RunKeepsNegative(Step(s, es[0]), es[1..], a);
    }
  }

  /**
   * Infected and blocked are final while the attachment names the same bytes:
   * nothing rescans, retries or ages them.
   */
  lemma NegativeIsAbsorbing(es: seq<Event>, more: seq<Event>, a: Guid)
    requires a in Run(START, es).sh.db.jobs && Negative(Run(START, es).sh.db.jobs[a])
    requires SameObjectThroughout(Run(START, es), more, a, Run(START, es).sh.db.jobs[a].identity)
    ensures
      var s := Run(START, es);
      a in Run(s, more).sh.db.jobs && Run(s, more).sh.db.jobs[a] == s.sh.db.jobs[a]
  {
    RunKeepsInv(START, es);
    RunKeepsNegative(Run(START, es), more, a);
  }
}
