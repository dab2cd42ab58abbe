/**
 * Delivery callbacks racing with the outbound message insert. A message is
 * named by its external id, which is unique. Rows are only ever appended, so a
 * row's position is its rowid.
 */
module MailgunEvents {
  import opened Wrappers

  type External = nat
  type Status = nat
  type Pid = nat

  /** delivery is the CRM state this event stands for, when it stands for one. */
  datatype EventRow = EventRow(
    external: Option<External>, linkedTo: Option<External>, delivery: Option<Status>,
    timestamp: Time, eventId: nat, callbackKey: nat)

  datatype Tables = Tables(messages: map<External, Status>, events: seq<EventRow>)

  // ---- Reading the tables ----------------------------------------------------

  function Linked(events: seq<EventRow>, x: External): set<nat> {
    set i: nat | i < |events| && events[i].linkedTo == Some(x)
  }

  function Matching(events: seq<EventRow>, x: External): set<nat> {
    set i: nat | i < |events| && events[i].external == Some(x)
  }

  /** Among the first n rows: the latest linked event, by time then row, that has a delivery state. */
  function Latest(events: seq<EventRow>, x: External, n: nat): (r: Option<nat>)
    requires n <= |events|
    ensures r.Some? ==> r.value < n && events[r.value].linkedTo == Some(x) && events[r.value].delivery.Some?
  {
    if n == 0 then None else
    var best := Latest(events, x, n - 1);
    var row := events[n - 1];
    if row.linkedTo == Some(x) && row.delivery.Some? && (best.None? || row.timestamp >= events[best.value].timestamp)
    then Some(n - 1) else best
  }

  /** The status a message's linked events say it has. */
  function Derive(events: seq<EventRow>, x: External): Option<Status> {
    var best := Latest(events, x, |events|);
    if best.Some? then events[best.value].delivery else None
  }

  /** MAX(rowid) over the linked rows among the first n, rowids counted from one; zero when there is none. */
  function MaxRow(events: seq<EventRow>, x: External, n: nat): (m: nat)
    requires n <= |events|
    ensures m <= n && (m > 0 ==> events[m - 1].linkedTo == Some(x))
    ensures forall i | m <= i < n :: events[i].linkedTo != Some(x)
  {
    if n == 0 then 0 else if events[n - 1].linkedTo == Some(x) then n else MaxRow(events, x, n - 1)
  }

  // ---- Statements ------------------------------------------------------------

  /** INSERT OR IGNORE: both the provider event id and the callback key are unique. */
  function InsertEvent(t: Tables, row: EventRow): Tables {
    if exists i | 0 <= i < |t.events| ::
      t.events[i].eventId == row.eventId || t.events[i].callbackKey == row.callbackKey
    then t else t.(events := t.events + [row])
  }

  function LinkEvent(t: Tables, i: nat, x: External): Tables {
    if i < |t.events| && t.events[i].linkedTo.None?
    then t.(events := t.events[i := t.events[i].(linkedTo := Some(x))]) else t
  }

  /** The optimistic status update: nothing was linked since the snapshot, by count and by greatest row. */
  function UpdateStatus(t: Tables, x: External, status: Status, count: nat, maxRow: nat): (Tables, bool) {
    if x in t.messages && count == |Linked(t.events, x)| && maxRow == MaxRow(t.events, x, |t.events|)
    then (t.(messages := t.messages[x := status]), true) else (t, false)
  }

  // ---- Processes ---------------------------------------------------------------

  datatype Pc =
    | LookingUp(row: EventRow)
    | Inserting(row: EventRow)
    | InsertingMessage(message: External, status: Status)
    | Reconciling(x: External)
    | Listing(x: External)
    | Linking(x: External, todo: seq<nat>)
    | Snapping(x: External, attempt: nat)
    | Updating(x: External, attempt: nat, seen: set<nat>, maxRow: nat, derived: Status)
    | Finished
    | Broken

  datatype System = System(t: Tables, procs: map<Pid, Pc>)

  const START := System(Tables(map[], []), map[])

  datatype Event =
    | Record(pid: Pid, row: EventRow)                   // a verified callback
    | Outbound(pid: Pid, x: External, status: Status)   // the send path inserts its message
    | Turn(pid: Pid, fate: Fate)
    | Crash(pid: Pid)

  const ATTEMPTS: nat := 3

  function Put(s: System, pid: Pid, pc: Pc): System { s.(procs := s.procs[pid := pc]) }

  function Unmatched(events: seq<EventRow>, n: nat): (r: seq<nat>)
    requires n <= |events|
    ensures forall i | 0 <= i < n :: i in r <==> events[i].linkedTo.None?
    ensures forall i | i in r :: i < n
  {
    if n == 0 then []
    else Unmatched(events, n - 1) + (if events[n - 1].linkedTo.None? then [n - 1] else [])
  }

  /** One await that took effect and was acknowledged. */
  function Proceed(s: System, pid: Pid): System
    requires pid in s.procs
  {
    match s.procs[pid]
    case LookingUp(row) =>
      var known := row.external.Some? && row.external.value in s.t.messages;
      Put(s, pid, Inserting(row.(linkedTo := if known then row.external else None)))
    case Inserting(row) =>
      Put(s.(t := InsertEvent(s.t, row)), pid, if row.external.Some? then Reconciling(row.external.value) else Finished)
    case InsertingMessage(x, status) =>
      if x in s.t.messages then Put(s, pid, Broken)   // unique external id
      else Put(s.(t := s.t.(messages := s.t.messages[x := status])), pid, Reconciling(x))
    case Reconciling(x) => Put(s, pid, if x in s.t.messages then Listing(x) else Finished)
    case Listing(x) => Put(s, pid, Linking(x, Unmatched(s.t.events, |s.t.events|)))
    case Linking(x, todo) =>
      if todo == [] then Put(s, pid, Snapping(x, 0))
      else Put(if todo[0] < |s.t.events| && s.t.events[todo[0]].external == Some(x)
               then s.(t := LinkEvent(s.t, todo[0], x)) else s,
               pid, Linking(x, todo[1..]))
    case Snapping(x, attempt) =>
      var derived := Derive(s.t.events, x);
      Put(s, pid, if derived.None? then Finished
                  else Updating(x, attempt, Linked(s.t.events, x), MaxRow(s.t.events, x, |s.t.events|), derived.value))
    case Updating(x, attempt, seen, maxRow, derived) =>
      var (t, changed) := UpdateStatus(s.t, x, derived, |seen|, maxRow);
      Put(s.(t := t), pid, if changed || attempt + 1 >= ATTEMPTS then Finished else Snapping(x, attempt + 1))
    case Finished => s
    case Broken => s
  }

  /** Without an acknowledgement the process fails, whether or not the effect was kept. */
  function Await(s: System, pid: Pid, fate: Fate): System
    requires pid in s.procs
  {
    if s.procs[pid].Finished? then s
    else match fate
      case Acked => Proceed(s, pid)
      case AckLost => Put(s.(t := Proceed(s, pid).t), pid, Broken)
      case Failed => Put(s, pid, Broken)
  }

  function Step(s: System, e: Event): System {
    match e
    case Record(pid, row) => if pid in s.procs then s else Put(s, pid, LookingUp(row.(linkedTo := None)))
    case Outbound(pid, x, status) => if pid in s.procs then s else Put(s, pid, InsertingMessage(x, status))
    case Turn(pid, fate) => if pid in s.procs then Await(s, pid, fate) else s
    case Crash(pid) => if pid in s.procs && !s.procs[pid].Finished? then Put(s, pid, Broken) else s
  }

  function Run(s: System, es: seq<Event>): System
    decreases es
  {
    if es == [] then s else Run(Step(s, es[0]), es[1..])
  }

  // ---- The invariant -------------------------------------------------------

  /** Rows keep everything but their link, which is set once and to their own message. */
  predicate Extends(a: seq<EventRow>, b: seq<EventRow>) {
    && |a| <= |b|
    && forall i | 0 <= i < |a| ::
         b[i].(linkedTo := a[i].linkedTo) == a[i] && (a[i].linkedTo.Some? ==> b[i].linkedTo == a[i].linkedTo)
  }

  predicate RowOk(t: Tables, row: EventRow) {
    row.linkedTo.Some? ==> row.linkedTo == row.external && row.linkedTo.value in t.messages
  }

  predicate WillLink(pc: Pc, x: External, i: nat) {
    || pc == Reconciling(x) || pc == Listing(x)
    || (pc.Linking? && pc.x == x && i in pc.todo)
  }

  /** The process will still take its first snapshot, or holds one of everything linked now. */
  predicate WillRefresh(s: System, pc: Pc, x: External) {
    || pc == Reconciling(x) || pc == Listing(x) || (pc.Linking? && pc.x == x) || pc == Snapping(x, 0)
    || (pc.Updating? && pc.x == x && pc.seen == Linked(s.t.events, x))
  }

  predicate Stale(s: System, x: External) {
    && x in s.t.messages && Derive(s.t.events, x).Some?
    && s.t.messages[x] != Derive(s.t.events, x).value
  }

  predicate PcOk(s: System, pc: Pc) {
    match pc
    case LookingUp(row) => row.linkedTo.None?
    case Inserting(row) => RowOk(s.t, row)
    case Listing(x) => x in s.t.messages
    case Linking(x, todo) => x in s.t.messages
    case Updating(x, _, seen, maxRow, derived) =>
      && seen <= Linked(s.t.events, x)
      && (seen == Linked(s.t.events, x) ==>
            Derive(s.t.events, x) == Some(derived) && maxRow == MaxRow(s.t.events, x, |s.t.events|))
    case _ => true
  }

  ghost predicate Waiting(s: System, x: External, i: nat) {
    exists p | p in s.procs :: WillLink(s.procs[p], x, i)
  }

  ghost predicate Refreshing(s: System, x: External) {
    exists p | p in s.procs :: WillRefresh(s, s.procs[p], x)
  }

  /** Links and pending links are in order, and so is what each process remembers. */
  ghost predicate Sane(s: System) {
    && (forall i | 0 <= i < |s.t.events| :: RowOk(s.t, s.t.events[i]))
    && (forall p | p in s.procs :: PcOk(s, s.procs[p]))
  }

  /** An event that belongs to an inserted message and is not linked to it. */
  predicate Unlinked(t: Tables, x: External, i: nat) {
    i < |t.events| && t.events[i].linkedTo.None? && t.events[i].external == Some(x) && x in t.messages
  }

  /** Somebody will link each unlinked event of the message, and refresh its status if that is wrong. */
  ghost predicate Tended(s: System, x: External) {
    && (forall i: nat | Unlinked(s.t, x, i) :: Waiting(s, x, i))
    && (Stale(s, x) ==> Refreshing(s, x))
  }

  /** The process works for this message. */
  predicate Serves(pc: Pc, x: External) {
    match pc
    case LookingUp(row) => row.external == Some(x)
    case Inserting(row) => row.external == Some(x)
    case InsertingMessage(y, _) => x == y
    case Reconciling(y) => x == y
    case Listing(y) => x == y
    case Linking(y, _) => x == y
    case Snapping(y, _) => x == y
    case Updating(y, _, _, _, _) => x == y
    case Finished | Broken => false
  }

  /** A process that worked for this message broke. */
  ghost predicate Loses(s: System, s': System, x: External) {
    exists p | p in s.procs && Serves(s.procs[p], x) :: p in s'.procs && s'.procs[p].Broken?
  }

  // ---- Facts about the derived status ------------------------------------------

  lemma {:induction false} LatestStable(a: seq<EventRow>, b: seq<EventRow>, x: External, n: nat)
    requires Extends(a, b) && Linked(a, x) == Linked(b, x) && n <= |a|
    ensures Latest(b, x, n) == Latest(a, x, n) && MaxRow(b, x, n) == MaxRow(a, x, n)
  {
    if n > 0 {
      LatestStable(a, b, x, n - 1);
      assert (n - 1) in Linked(a, x) <==> (n - 1) in Linked(b, x);
    }
  }

  lemma {:induction false} NothingLinkedBeyond(b: seq<EventRow>, x: External, k: nat, n: nat)
    requires k <= n <= |b| && forall i | k <= i < n :: b[i].linkedTo != Some(x)
    ensures Latest(b, x, n) == Latest(b, x, k) && MaxRow(b, x, n) == MaxRow(b, x, k)
  {
    if n > k { NothingLinkedBeyond(b, x, k, n - 1); }
  }

  /** As long as no further event of x is linked, what its events say does not change. */
  lemma DeriveStable(a: seq<EventRow>, b: seq<EventRow>, x: External)
    requires Extends(a, b) && Linked(a, x) == Linked(b, x)
    ensures Derive(b, x) == Derive(a, x) && MaxRow(b, x, |b|) == MaxRow(a, x, |a|)
  {
    forall i | |a| <= i < |b| ensures b[i].linkedTo != Some(x) { assert i !in Linked(a, x); assert i !in Linked(b, x); }
    LatestStable(a, b, x, |a|);
    NothingLinkedBeyond(b, x, |a|, |b|);
  }

  lemma LinkedGrows(a: seq<EventRow>, b: seq<EventRow>, x: External)
    requires Extends(a, b)
    ensures Linked(a, x) <= Linked(b, x)
  {}

  /** A subset with as many elements is the whole set: the count check detects every missed link. */
  lemma SameCountSameSet(a: set<nat>, b: set<nat>)
    requires a <= b && |a| == |b|
    ensures a == b
  {
    if a != b {
      var y :| y in b && y !in a;
      assert a <= b - {y};
      SubsetCount(a, b - {y});
    }
  }

  lemma {:induction false} SubsetCount(a: set<nat>, b: set<nat>)
    requires a <= b
    ensures |a| <= |b|
  {
    if y :| y in a { SubsetCount(a - {y}, b - {y}); }
  }

  // ---- Steps -----------------------------------------------------------------

  predicate TablesGrow(t: Tables, t': Tables) {
    Extends(t.events, t'.events) && t.messages.Keys <= t'.messages.Keys
  }

  lemma PcStaysOk(s: System, t': Tables, pc: Pc)
    requires PcOk(s, pc) && TablesGrow(s.t, t')
    ensures PcOk(s.(t := t'), pc)
  {
    if pc.Updating? {
      LinkedGrows(s.t.events, t'.events, pc.x);
      if pc.seen == Linked(t'.events, pc.x) { DeriveStable(s.t.events, t'.events, pc.x); }
    }
  }

  lemma ProceedGrows(s: System, pid: Pid)
    requires Sane(s) && pid in s.procs
    ensures TablesGrow(s.t, Proceed(s, pid).t)
    ensures forall i | 0 <= i < |Proceed(s, pid).t.events| :: RowOk(Proceed(s, pid).t, Proceed(s, pid).t.events[i])
  {}

  lemma ProceedPcOk(s: System, pid: Pid)
    requires Sane(s) && pid in s.procs
    ensures PcOk(Proceed(s, pid), Proceed(s, pid).procs[pid])
  {}

  /** One process moves and the tables grow. */
  lemma MoveKeepsSane(s: System, t': Tables, pid: Pid, pc: Pc)
    requires Sane(s) && TablesGrow(s.t, t') && (forall i | 0 <= i < |t'.events| :: RowOk(t', t'.events[i]))
    requires PcOk(Put(s.(t := t'), pid, pc), pc)
    ensures Sane(Put(s.(t := t'), pid, pc))
  {
    var s' := Put(s.(t := t'), pid, pc);
    forall p | p in s'.procs ensures PcOk(s', s'.procs[p]) {
      if p != pid {
        PcStaysOk(s, t', s.procs[p]);
        assert PcOk(s.(t := t'), s.procs[p]);
      }
    }
  }

  lemma OthersStay(s: System, pid: Pid)
    requires pid in s.procs
    ensures Proceed(s, pid).procs == s.procs[pid := Proceed(s, pid).procs[pid]]
  {}

  lemma AwaitKeepsSane(s: System, pid: Pid, fate: Fate)
    requires Sane(s) && pid in s.procs
    ensures Sane(Await(s, pid, fate)) && TablesGrow(s.t, Await(s, pid, fate).t)
  {
    ProceedGrows(s, pid);
    ProceedPcOk(s, pid);
    OthersStay(s, pid);
    var s' := Proceed(s, pid);
    if fate.Acked? { MoveKeepsSane(s, s'.t, pid, s'.procs[pid]); }
    else { MoveKeepsSane(s, if fate.AckLost? then s'.t else s.t, pid, Broken); }
  }

  lemma StepKeepsSane(s: System, e: Event)
    requires Sane(s)
    ensures Sane(Step(s, e)) && TablesGrow(s.t, Step(s, e).t)
  {
    match e
    case Turn(pid, fate) => if pid in s.procs { AwaitKeepsSane(s, pid, fate); }
    case Record(pid, _) => if pid !in s.procs { MoveKeepsSane(s, s.t, pid, Step(s, e).procs[pid]); }
    case Outbound(pid, _, _) => if pid !in s.procs { MoveKeepsSane(s, s.t, pid, Step(s, e).procs[pid]); }
    case Crash(pid) => if pid in s.procs { MoveKeepsSane(s, s.t, pid, Broken); }
  }

  lemma LinkerContinues(s: System, pid: Pid, x: External, i: nat)
    requires pid in s.procs && WillLink(s.procs[pid], x, i) && Unlinked(s.t, x, i) && Unlinked(Proceed(s, pid).t, x, i)
    ensures WillLink(Proceed(s, pid).procs[pid], x, i)
  {}

  /** Whoever inserts the row or its message links it. */
  lemma NewcomerLinks(s: System, pid: Pid, x: External, i: nat)
    requires Sane(s) && pid in s.procs && !Proceed(s, pid).procs[pid].Broken?
    requires Unlinked(Proceed(s, pid).t, x, i) && (i >= |s.t.events| || x !in s.t.messages)
    ensures WillLink(Proceed(s, pid).procs[pid], x, i)
  {}

  /** A process that will link a row still will after an acknowledged await, unless it just did. */
  lemma ProceedKeepsLinks(s: System, pid: Pid, x: External, i: nat)
    requires Sane(s) && Tended(s, x) && pid in s.procs && !Proceed(s, pid).procs[pid].Broken?
    requires Unlinked(Proceed(s, pid).t, x, i)
    ensures Waiting(Proceed(s, pid), x, i)
  {
    var s' := Proceed(s, pid);
    OthersStay(s, pid);
    if i < |s.t.events| && x in s.t.messages {
      ProceedGrows(s, pid);
      assert Unlinked(s.t, x, i);
      var p :| p in s.procs && WillLink(s.procs[p], x, i);
      if p == pid { LinkerContinues(s, pid, x, i); }
      assert WillLink(s'.procs[p], x, i);
    } else {
      NewcomerLinks(s, pid, x, i);
      assert WillLink(s'.procs[pid], x, i);
    }
  }

  /** A status update that lands leaves its message right, so a message that is wrong now was wrong before. */
  lemma StillStale(s: System, pid: Pid, x: External)
    requires Sane(s) && pid in s.procs && x in s.t.messages && Stale(Proceed(s, pid), x)
    requires Derive(Proceed(s, pid).t.events, x) == Derive(s.t.events, x)
    ensures Stale(s, x)
  {
    var pc := s.procs[pid];
    if pc.Updating? && pc.x == x && UpdateStatus(s.t, x, pc.derived, |pc.seen|, pc.maxRow).1 {
      assert PcOk(s, pc);
      SameCountSameSet(pc.seen, Linked(s.t.events, x));
    }
  }

  /** Whoever links an event of x, or inserts x, has its refresh still ahead. */
  lemma LinkerRefreshes(s: System, pid: Pid, x: External)
    requires Sane(s) && pid in s.procs && !Proceed(s, pid).procs[pid].Broken?
    requires (x in Proceed(s, pid).t.messages && x !in s.t.messages)
      || Linked(Proceed(s, pid).t.events, x) != Linked(s.t.events, x)
    ensures WillRefresh(Proceed(s, pid), Proceed(s, pid).procs[pid], x)
  {}

  /** A refresher of a message that is still wrong afterwards keeps going. */
  lemma RefresherContinues(s: System, pid: Pid, x: External)
    requires Sane(s) && pid in s.procs && WillRefresh(s, s.procs[pid], x)
    requires Linked(Proceed(s, pid).t.events, x) == Linked(s.t.events, x) && x in s.t.messages
    requires Derive(s.t.events, x).Some?
    requires Stale(Proceed(s, pid), x)
    ensures WillRefresh(Proceed(s, pid), Proceed(s, pid).procs[pid], x)
  {}

  /** If the message is still wrong, somebody still refreshes it. */
  lemma RefreshKept(s: System, pid: Pid, x: External)
    requires Sane(s) && Tended(s, x) && pid in s.procs && !Proceed(s, pid).procs[pid].Broken?
    requires Stale(Proceed(s, pid), x) && x in s.t.messages
    requires Linked(Proceed(s, pid).t.events, x) == Linked(s.t.events, x)
    ensures Refreshing(Proceed(s, pid), x)
  {
    var s' := Proceed(s, pid);
    ProceedGrows(s, pid);
    DeriveStable(s.t.events, s'.t.events, x);
    StillStale(s, pid, x);
    SomebodyRefreshes(s, pid, x);
  }

  lemma SomebodyRefreshes(s: System, pid: Pid, x: External)
    requires Sane(s) && Refreshing(s, x) && pid in s.procs && Stale(Proceed(s, pid), x) && Stale(s, x)
    requires Linked(Proceed(s, pid).t.events, x) == Linked(s.t.events, x)
    ensures Refreshing(Proceed(s, pid), x)
  {
    var p :| p in s.procs && WillRefresh(s, s.procs[p], x);
    OthersStay(s, pid);
    if p == pid { RefresherContinues(s, pid, x); }
    assert WillRefresh(Proceed(s, pid), Proceed(s, pid).procs[p], x);
  }

  lemma ProceedKeepsTended(s: System, pid: Pid, x: External)
    requires Sane(s) && Tended(s, x) && pid in s.procs && !Proceed(s, pid).procs[pid].Broken?
    ensures Tended(Proceed(s, pid), x)
  {
    var s' := Proceed(s, pid);
    forall i: nat | Unlinked(s'.t, x, i) ensures Waiting(s', x, i) { ProceedKeepsLinks(s, pid, x, i); }
    if Stale(s', x) {
      if x !in s.t.messages || Linked(s'.t.events, x) != Linked(s.t.events, x) {
        LinkerRefreshes(s, pid, x);
      } else {
        RefreshKept(s, pid, x);
      }
    }
  }

  /** Nothing about this message moved in the tables. */
  ghost predicate SameFor(t: Tables, t': Tables, x: External) {
    && Extends(t.events, t'.events) && Linked(t'.events, x) == Linked(t.events, x)
    && (forall i: nat | Unlinked(t', x, i) :: Unlinked(t, x, i))
    && (x in t'.messages ==> x in t.messages && t'.messages[x] == t.messages[x])
  }

  lemma ForeignTurn(s: System, pid: Pid, x: External)
    requires Sane(s) && pid in s.procs && !Serves(s.procs[pid], x)
    ensures SameFor(s.t, Proceed(s, pid).t, x)
  {}

  /** Whoever else moves, begins or breaks: the processes that work for this message are where they were. */
  lemma OthersKeepTended(s: System, s': System, x: External)
    requires Tended(s, x) && SameFor(s.t, s'.t, x)
    requires forall p | p in s.procs && Serves(s.procs[p], x) :: p in s'.procs && s'.procs[p] == s.procs[p]
    ensures Tended(s', x)
  {
    DeriveStable(s.t.events, s'.t.events, x);
    forall i: nat | Unlinked(s'.t, x, i) ensures Waiting(s', x, i) {
      assert Unlinked(s.t, x, i);
      var p :| p in s.procs && WillLink(s.procs[p], x, i);
      assert WillLink(s'.procs[p], x, i);
    }
    if Stale(s', x) {
      assert Stale(s, x);
      var p :| p in s.procs && WillRefresh(s, s.procs[p], x);
      assert WillRefresh(s', s'.procs[p], x);
    }
  }

  lemma TurnKeepsTended(s: System, pid: Pid, fate: Fate, x: External)
    requires Sane(s) && Tended(s, x) && pid in s.procs && !Loses(s, Await(s, pid, fate), x)
    ensures Tended(Await(s, pid, fate), x)
  {
    var s' := Await(s, pid, fate);
    OthersStay(s, pid);
    if !Serves(s.procs[pid], x) {
      ForeignTurn(s, pid, x);
      OthersKeepTended(s, s', x);
    } else {
      assert !s'.procs[pid].Broken?;
      ProceedKeepsTended(s, pid, x);
    }
  }

  /** Whatever happens, a tended message stays tended, unless a process that works for it breaks. */
  lemma StepKeepsTended(s: System, e: Event, x: External)
    requires Sane(s) && Tended(s, x) && !Loses(s, Step(s, e), x)
    ensures Tended(Step(s, e), x)
  {
    match e
    case Turn(pid, fate) => if pid in s.procs { TurnKeepsTended(s, pid, fate, x); }
    case Record(_, _) => OthersKeepTended(s, Step(s, e), x);
    case Outbound(_, _, _) => OthersKeepTended(s, Step(s, e), x);
    case Crash(pid) =>
      if pid in s.procs && !s.procs[pid].Finished? {
        assert Step(s, e).procs[pid].Broken?;
        OthersKeepTended(s, Step(s, e), x);
      }
  }

  lemma {:induction false} RunKeepsSane(s: System, es: seq<Event>)
    requires Sane(s)
    ensures Sane(Run(s, es))
    decreases es
  {
    if es != [] {
      StepKeepsSane(s, es[0]);
      RunKeepsSane(Step(s, es[0]), es[1..]);
    }
  }

  /** In no step of the run a process breaks that worked for this message. */
  ghost predicate NoLoss(s: System, es: seq<Event>, x: External)
    decreases es
  {
    es != [] ==> !Loses(s, Step(s, es[0]), x) && NoLoss(Step(s, es[0]), es[1..], x)
  }

  lemma {:induction false} RunKeepsTended(s: System, es: seq<Event>, x: External)
    requires Sane(s) && Tended(s, x) && NoLoss(s, es, x)
    ensures Tended(Run(s, es), x)
    decreases es
  {
    if es != [] {
      StepKeepsSane(s, es[0]);
      StepKeepsTended(s, es[0], x);
      RunKeepsTended(Step(s, es[0]), es[1..], x);
    }
  }

  // ---- A callback delivered again ----------------------------------------------

  /** The process is still to insert its event for this message. */
  predicate Arrives(s: System, pid: Pid, x: External) {
    && pid in s.procs && (s.procs[pid].LookingUp? || s.procs[pid].Inserting?)
    && s.procs[pid].row.external == Some(x)
  }

  /** Once its event is stored, or known to be, it tends the message alone. */
  lemma ArrivalTends(s: System, pid: Pid, x: External)
    requires Arrives(s, pid, x)
    ensures var s' := Proceed(s, pid); Arrives(s', pid, x) || Tended(s', x)
  {
    var s' := Proceed(s, pid);
    if s.procs[pid].Inserting? {
      assert forall i :: WillLink(s'.procs[pid], x, i);
      assert WillRefresh(s', s'.procs[pid], x);
    }
  }

  lemma StepRecovers(s: System, e: Event, pid: Pid, x: External)
    requires Sane(s) && Arrives(s, pid, x) && !Loses(s, Step(s, e), x)
    ensures Arrives(Step(s, e), pid, x) || Tended(Step(s, e), x)
  {
    var s' := Step(s, e);
    assert pid in s'.procs ==> !s'.procs[pid].Broken?;
    if e.Turn? && e.pid in s.procs {
      OthersStay(s, e.pid);
      if e.pid == pid { ArrivalTends(s, pid, x); }
    }
  }

  lemma {:induction false} RunRecovers(s: System, es: seq<Event>, pid: Pid, x: External)
    requires Sane(s) && NoLoss(s, es, x) && (Arrives(s, pid, x) || Tended(s, x))
    ensures Arrives(Run(s, es), pid, x) || Tended(Run(s, es), x)
    decreases es
  {
    if es != [] {
      StepKeepsSane(s, es[0]);
      if Tended(s, x) { StepKeepsTended(s, es[0], x); } else { StepRecovers(s, es[0], pid, x); }
      RunRecovers(Step(s, es[0]), es[1..], pid, x);
    }
  }

  // ---- Main results ----------------------------------------------------------

  /** Nobody works for this message any more. */
  ghost predicate Settled(s: System, x: External) { forall p | p in s.procs :: !Serves(s.procs[p], x) }

  /** Every event of the message is linked to it, and its status is the one its events stand for. */
  ghost predicate Right(t: Tables, x: External)
    requires x in t.messages
  {
    && Linked(t.events, x) == Matching(t.events, x)
    && (Derive(t.events, x).Some? ==> t.messages[x] == Derive(t.events, x).value)
  }

  lemma TendedAndSettledIsRight(s: System, x: External)
    requires Sane(s) && Tended(s, x) && Settled(s, x) && x in s.t.messages
    ensures Right(s.t, x)
  {
    assert !Refreshing(s, x);
    forall i | 0 <= i < |s.t.events| && s.t.events[i].external == Some(x) ensures s.t.events[i].linkedTo == Some(x) {
      assert RowOk(s.t, s.t.events[i]);
      assert !Waiting(s, x, i);
    }
    forall i | 0 <= i < |s.t.events| && s.t.events[i].linkedTo == Some(x) ensures s.t.events[i].external == Some(x) {
      assert RowOk(s.t, s.t.events[i]);
    }
  }

  /**
   * Convergence of one message: whatever else crashes or fails, if no process
   * that works for this message breaks, then once none is left every event of
   * it is linked, and the stored status is the one its full set of events
   * stands for - even if some refresh gave up after its third attempt.
   */
  lemma MessageConverges(es: seq<Event>, x: External)
    requires NoLoss(START, es, x) && Settled(Run(START, es), x) && x in Run(START, es).t.messages
    ensures Right(Run(START, es).t, x)
  {
    RunKeepsSane(START, es);
    RunKeepsTended(START, es, x);
    TendedAndSettledIsRight(Run(START, es), x);
  }

  /**
   * Recovery: after any run whatever, with any calls broken at any await, one
   * more callback for the message restores it, new or delivered again: if from
   * then on no process that works for this message breaks, then once none is
   * left all its events are linked and its status is right.
   */
  lemma ConvergesAfterRetry(es: seq<Event>, pid: Pid, row: EventRow, more: seq<Event>, x: External)
    requires pid !in Run(START, es).procs && row.external == Some(x)
    requires
      var s := Step(Run(START, es), Record(pid, row));
      NoLoss(s, more, x) && Settled(Run(s, more), x) && x in Run(s, more).t.messages
    ensures Right(Run(Step(Run(START, es), Record(pid, row)), more).t, x)
  {
    RunKeepsSane(START, es);
    var s := Step(Run(START, es), Record(pid, row));
    StepKeepsSane(Run(START, es), Record(pid, row));
    RunRecovers(s, more, pid, x);
    RunKeepsSane(s, more);
    TendedAndSettledIsRight(Run(s, more), x);
  }

  ghost predicate Quiescent(s: System) { forall p | p in s.procs :: s.procs[p].Finished? }

  ghost predicate Unbroken(s: System) { forall p | p in s.procs :: !s.procs[p].Broken? }

  lemma BrokenSticks(s: System, e: Event)
    requires Unbroken(Step(s, e))
    ensures Unbroken(s) && forall p | p in s.procs :: p in Step(s, e).procs
  {
    var s' := Step(s, e);
    if e.Turn? && e.pid in s.procs { OthersStay(s, e.pid); }
    forall p | p in s.procs
      ensures !s.procs[p].Broken? && p in s'.procs
    {
      assert p in s'.procs && !s'.procs[p].Broken?;
    }
  }

  lemma {:induction false} UnbrokenHadNoLoss(s: System, es: seq<Event>, x: External)
    requires Unbroken(Run(s, es))
    ensures Unbroken(s) && NoLoss(s, es, x)
    decreases es
  {
    if es != [] {
      UnbrokenHadNoLoss(Step(s, es[0]), es[1..], x);
      BrokenSticks(s, es[0]);
    }
  }

  /** In particular: once every process has finished without failing, every message is right. */
  lemma Converges(es: seq<Event>, x: External)
    requires Quiescent(Run(START, es)) && x in Run(START, es).t.messages
    ensures var t := Run(START, es).t;
      && Linked(t.events, x) == Matching(t.events, x)
      && (Derive(t.events, x).Some? ==> t.messages[x] == Derive(t.events, x).value)
  {
    UnbrokenHadNoLoss(START, es, x);
    MessageConverges(es, x);
  }
}
