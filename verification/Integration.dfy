/**
 * The integration command executor: an existing service runs against a staging
 * database that records every read and holds back every write; one batch then
 * inserts the operation row, rechecks the reads, applies the writes and stores
 * the receipt.
 */
module Integration {
  import opened Wrappers

  type Pid = nat

  /** Contents of the tables the services work on. Rows and receipts are opaque. */
  type Tables = map<nat, nat>

  /** A prepared select, and a prepared write that may violate a constraint. */
  type Query = Tables -> seq<nat>
  type Write = Tables -> Option<Tables>

  /** What a service does next, given everything it has seen. */
  datatype Action = All(q: Query) | First(q: Query) | Stage(ws: seq<Write>) | Finish(target: nat) | Refuse

  datatype Seen = Rows(rows: seq<nat>) | Staged

  /** A service with its input, clock readings and drawn identifiers fixed. */
  type Service = seq<Seen> -> Action

  datatype Command = Command(
    subject: nat, key: nat, hash: nat, service: Service,
    render: (nat, Tables) -> Option<nat>)   // the receipt for a target, if its row is visible

  datatype Slot = Slot(subject: nat, key: nat)

  /** A committed operation: the request's fingerprint and the receipt. */
  datatype Operation = Operation(hash: nat, receipt: nat)

  datatype Guard = Guard(q: Query, rows: seq<nat>)

  ghost predicate Holds(g: Guard, t: Tables) { g.q(t) == g.rows }

  function FirstRow(rows: seq<nat>): seq<nat> { if rows == [] then [] else rows[..1] }

  /** What the staging database shows for an action on these tables. */
  function Show(a: Action, t: Tables): Seen {
    match a
    case All(q) => Rows(q(t))
    case First(q) => Rows(FirstRow(q(t)))
    case _ => Staged
  }

  /** The guard recorded for a read, with the rows the service was shown. */
  function GuardFor(a: Action, seen: Seen): seq<Guard> {
    match a
    case All(q) => if seen.Rows? then [Guard(q, seen.rows)] else []
    case First(q) => if seen.Rows? then [Guard(q, seen.rows)] else []
    case _ => []
  }

  function WritesFor(a: Action): seq<Write> { if a.Stage? then a.ws else [] }

  function GuardsOf(f: Service, h: seq<Seen>): seq<Guard> {
    if h == [] then [] else GuardsOf(f, h[..|h| - 1]) + GuardFor(f(h[..|h| - 1]), h[|h| - 1])
  }

  function WritesOf(f: Service, h: seq<Seen>): seq<Write> {
    if h == [] then [] else WritesOf(f, h[..|h| - 1]) + WritesFor(f(h[..|h| - 1]))
  }

  function Apply(ws: seq<Write>, t: Tables): Option<Tables> {
    if ws == [] then Some(t)
    else
      var before := Apply(ws[..|ws| - 1], t);
      if before.None? then None else ws[|ws| - 1](before.value)
  }

  ghost predicate AllHold(guards: seq<Guard>, t: Tables) { forall i | 0 <= i < |guards| :: Holds(guards[i], t) }

  datatype Db = Db(tables: Tables, operations: map<Slot, Operation>)

  /**
   * The batch, all or nothing: the slot must be free, every read still hold,
   * every write pass, the receipt not be null.
   */
  ghost function CommitBatch(db: Db, c: Command, guards: seq<Guard>, writes: seq<Write>, target: nat): Option<Db> {
    var slot := Slot(c.subject, c.key);
    if slot in db.operations || !AllHold(guards, db.tables) then None
    else
      var after := Apply(writes, db.tables);
      if after.None? || c.render(target, after.value).None? then None
      else Some(Db(after.value, db.operations[slot := Operation(c.hash, c.render(target, after.value).value)]))
  }

  // ---- Calls ----------------------------------------------------------------------

  datatype Answer = Receipt(receipt: nat, replayed: bool) | Conflict | WriteConflict | Failure

  datatype Pc =
    | LookingUp
    | Working(seen: seq<Seen>, guards: seq<Guard>, writes: seq<Write>)
    | Committing(seen: seq<Seen>, guards: seq<Guard>, writes: seq<Write>, target: nat)
    | Recovering(refused: bool)    // the batch threw: on a constraint, or for any other reason
    | Confirming
    | Over(answer: Answer)

  datatype Proc = Proc(command: Command, pc: Pc)
  {
    function Go(next: Pc): Proc { this.(pc := next) }
  }

  /** One change of the tables: by the batch of a command that saw this, or by anybody else. */
  datatype Entry =
    | Committed(before: Tables, after: Tables, command: Command, seen: seq<Seen>, target: nat)
    | Outside(before: Tables, after: Tables)

  datatype System = System(db: Db, procs: map<Pid, Proc>, log: seq<Entry>)

  const START := System(Db(map[], map[]), map[], [])

  datatype Event =
    | Begin(pid: Pid, command: Command)
    | Turn(pid: Pid, fate: Fate)
    | Crash(pid: Pid)
    | Change(tables: Tables)

  /** The stored answer for this call, if there is one. */
  function Stored(db: Db, c: Command): Option<Answer> {
    var slot := Slot(c.subject, c.key);
    if slot !in db.operations then None
    else Some(if db.operations[slot].hash == c.hash then Receipt(db.operations[slot].receipt, true) else Conflict)
  }

  function Put(s: System, pid: Pid, p: Proc): System { s.(procs := s.procs[pid := p]) }

  ghost function Work(s: System, c: Command, pc: Pc, fate: Fate): Pc
    requires pc.Working?
  {
    var a := c.service(pc.seen);
    if a.Finish? then Committing(pc.seen, pc.guards, pc.writes, a.target)
    else if a.Refuse? || !fate.Acked? then Over(Failure)
    else
      var seen := Show(a, s.db.tables);
      Working(pc.seen + [seen], pc.guards + GuardFor(a, seen), pc.writes + WritesFor(a))
  }

  ghost function Commit(s: System, pid: Pid, p: Proc, fate: Fate): System
    requires p.pc.Committing?
  {
    var c := p.command;
    var db := CommitBatch(s.db, c, p.pc.guards, p.pc.writes, p.pc.target);
    if db.None? || fate.Failed? then Put(s, pid, p.Go(Recovering(db.None? && fate.Acked?)))
    else
      Put(s.(db := db.value, log := s.log + [Committed(s.db.tables, db.value.tables, c, p.pc.seen, p.pc.target)]), pid,
          p.Go(if fate.Acked? then Confirming else Recovering(false)))
  }

  ghost function Await(s: System, pid: Pid, fate: Fate): System
    requires pid in s.procs
  {
    var p := s.procs[pid];
    var stored := Stored(s.db, p.command);
    match p.pc
    case LookingUp =>
      Put(s, pid, p.Go(if !fate.Acked? then Over(Failure)
                       else if stored.Some? then Over(stored.value) else Working([], [], [])))
    case Working(_, _, _) => Put(s, pid, p.Go(Work(s, p.command, p.pc, fate)))
    case Committing(_, _, _, _) => Commit(s, pid, p, fate)
    case Recovering(refused) =>
      Put(s, pid, p.Go(Over(if !fate.Acked? then Failure
                            else if stored.Some? then stored.value else if refused then WriteConflict else Failure)))
    case Confirming =>
      Put(s, pid, p.Go(Over(if !fate.Acked? || stored.None? then Failure
                            else if stored.value.Receipt? then Receipt(stored.value.receipt, false) else stored.value)))
    case Over(_) => s
  }

  ghost function Step(s: System, e: Event): System {
    match e
    case Begin(pid, c) => if pid in s.procs then s else Put(s, pid, Proc(c, LookingUp))
    case Turn(pid, fate) => if pid in s.procs then Await(s, pid, fate) else s
    case Crash(pid) =>
      if pid in s.procs && !s.procs[pid].pc.Over? then Put(s, pid, s.procs[pid].Go(Over(Failure))) else s
    case Change(t) => s.(db := s.db.(tables := t), log := s.log + [Outside(s.db.tables, t)])
  }

  ghost function Run(s: System, es: seq<Event>): System
    decreases es
  {
    if es == [] then s else Run(Step(s, es[0]), es[1..])
  }

  // ---- Running a service in one piece -----------------------------------------------

  /** Run alone on these tables, the service sees exactly this and then finishes. */
  ghost predicate RunsAlone(f: Service, t: Tables, seen: seq<Seen>, target: nat) {
    && (forall i | 0 <= i < |seen| :: Continues(f, t, seen, i))
    && f(seen) == Finish(target)
  }

  ghost predicate Continues(f: Service, t: Tables, seen: seq<Seen>, i: nat)
    requires i < |seen|
  {
    var a := f(seen[..i]);
    !a.Finish? && !a.Refuse? && seen[i] == Show(a, t)
  }

  lemma {:induction false} RunsAgree(f: Service, t: Tables, a: seq<Seen>, ta: nat, b: seq<Seen>, tb: nat, n: nat)
    requires RunsAlone(f, t, a, ta) && RunsAlone(f, t, b, tb) && n <= |a|
    ensures n <= |b| && a[..n] == b[..n]
  {
    if n > 0 {
      RunsAgree(f, t, a, ta, b, tb, n - 1);
      assert Continues(f, t, a, n - 1);
      assert b[..|b|] == b;
      assert n - 1 != |b|;
      assert Continues(f, t, b, n - 1);
      assert a[..n] == a[..n - 1] + [a[n - 1]] && b[..n] == b[..n - 1] + [b[n - 1]];
    }
  }

  /** A service run alone has one outcome. */
  lemma RunsAloneIsUnique(f: Service, t: Tables, a: seq<Seen>, ta: nat, b: seq<Seen>, tb: nat)
    requires RunsAlone(f, t, a, ta) && RunsAlone(f, t, b, tb)
    ensures a == b && ta == tb
  {
    RunsAgree(f, t, a, ta, b, tb, |a|);
    RunsAgree(f, t, b, tb, a, ta, |b|);
    assert a[..|a|] == a && b[..|b|] == b;
  }

  /** What a service was shown, whenever each read happened. */
  ghost predicate WasShown(f: Service, seen: seq<Seen>) {
    forall i | 0 <= i < |seen| :: ShownAt(f, seen, i)
  }

  ghost predicate ShownAt(f: Service, seen: seq<Seen>, i: nat)
    requires i < |seen|
  {
    var a := f(seen[..i]);
    && !a.Finish? && !a.Refuse?
    && (a.Stage? ==> seen[i] == Staged)
    && (a.All? ==> seen[i].Rows?)
    && (a.First? ==> seen[i].Rows? && |seen[i].rows| <= 1)
  }

  /** A trace grows by what the next action shows. */
  lemma TraceGrows(f: Service, t: Tables, seen: seq<Seen>)
    requires WasShown(f, seen) && !f(seen).Finish? && !f(seen).Refuse?
    ensures
      var grown := seen + [Show(f(seen), t)];
      && WasShown(f, grown)
      && GuardsOf(f, grown) == GuardsOf(f, seen) + GuardFor(f(seen), Show(f(seen), t))
      && WritesOf(f, grown) == WritesOf(f, seen) + WritesFor(f(seen))
  {
    var grown := seen + [Show(f(seen), t)];
    assert grown[..|grown| - 1] == seen;
    forall i | 0 <= i < |grown| ensures ShownAt(f, grown, i) {
      if i < |seen| {
        assert grown[..i] == seen[..i];
        assert ShownAt(f, seen, i);
      }
    }
  }

  lemma {:induction false} GuardIsRecorded(f: Service, seen: seq<Seen>, i: nat, t: Tables)
    requires i < |seen| && AllHold(GuardsOf(f, seen), t)
    ensures AllHold(GuardFor(f(seen[..i]), seen[i]), t)
    decreases |seen|
  {
    var n := |seen| - 1;
    var (front, last) := (GuardsOf(f, seen[..n]), GuardFor(f(seen[..n]), seen[n]));
    if i == n {
      forall k | 0 <= k < |last| ensures Holds(last[k], t) { assert (front + last)[|front| + k] == last[k]; }
    } else {
      forall k | 0 <= k < |front| ensures Holds(front[k], t) { assert (front + last)[k] == front[k]; }
      assert seen[..n][..i] == seen[..i];
      GuardIsRecorded(f, seen[..n], i, t);
    }
  }

  /** If every recorded read still holds, running the service again here shows it the same. */
  lemma GuardsMakeItRunAlone(f: Service, seen: seq<Seen>, target: nat, t: Tables)
    requires WasShown(f, seen) && f(seen) == Finish(target) && AllHold(GuardsOf(f, seen), t)
    ensures RunsAlone(f, t, seen, target)
  {
    forall i | 0 <= i < |seen| ensures Continues(f, t, seen, i) {
      assert ShownAt(f, seen, i);
      GuardIsRecorded(f, seen, i, t);
      var (a, gs) := (f(seen[..i]), GuardFor(f(seen[..i]), seen[i]));
      if a.All? || a.First? { assert Holds(gs[0], t); }
    }
  }

  // ---- The invariant ----------------------------------------------------------------

  function SlotOf(c: Command): Slot { Slot(c.subject, c.key) }

  /** A committed entry is the service run alone on the tables before, its writes applied, its receipt rendered. */
  ghost predicate Atomic(e: Entry) {
    e.Committed? ==>
      && RunsAlone(e.command.service, e.before, e.seen, e.target)
      && Apply(WritesOf(e.command.service, e.seen), e.before) == Some(e.after)
      && e.command.render(e.target, e.after).Some?
  }

  ghost predicate Chained(log: seq<Entry>, t: Tables) {
    && (forall i | 0 <= i < |log| :: Follows(log, i))
    && t == if log == [] then map[] else log[|log| - 1].after
  }

  ghost predicate Follows(log: seq<Entry>, i: nat)
    requires i < |log|
  {
    log[i].before == if i == 0 then map[] else log[i - 1].after
  }

  ghost predicate LogOk(s: System) {
    && Chained(s.log, s.db.tables)
    && (forall i | 0 <= i < |s.log| :: Atomic(s.log[i]))
    && EntriesRecorded(s.db, s.log) && SlotsDiffer(s.log)
    && (forall slot | slot in s.db.operations :: InLog(s.log, slot))
  }

  ghost predicate Recorded(db: Db, e: Entry)
    requires e.Committed?
  {
    && SlotOf(e.command) in db.operations
    && e.command.render(e.target, e.after) == Some(db.operations[SlotOf(e.command)].receipt)
    && db.operations[SlotOf(e.command)].hash == e.command.hash
  }

  ghost predicate InLog(log: seq<Entry>, slot: Slot) {
    exists i :: 0 <= i < |log| && log[i].Committed? && SlotOf(log[i].command) == slot
  }

  ghost predicate ProcOk(db: Db, p: Proc) {
    && (p.pc.Working? || p.pc.Committing? ==>
          && WasShown(p.command.service, p.pc.seen)
          && p.pc.guards == GuardsOf(p.command.service, p.pc.seen)
          && p.pc.writes == WritesOf(p.command.service, p.pc.seen))
    && (p.pc.Committing? ==> p.command.service(p.pc.seen) == Finish(p.pc.target))
    && (p.pc.Confirming? ==>
          SlotOf(p.command) in db.operations && db.operations[SlotOf(p.command)].hash == p.command.hash)
    && (p.pc.Over? && p.pc.answer.Receipt? ==>
          SlotOf(p.command) in db.operations
            && db.operations[SlotOf(p.command)] == Operation(p.command.hash, p.pc.answer.receipt))
    && (p.pc.Over? && p.pc.answer.Conflict? ==>
          SlotOf(p.command) in db.operations && db.operations[SlotOf(p.command)].hash != p.command.hash)
  }

  ghost predicate Inv(s: System) { LogOk(s) && forall pid | pid in s.procs :: ProcOk(s.db, s.procs[pid]) }

  /** Operations are only ever added. */
  ghost predicate Extends(d: Db, d': Db) {
    forall slot | slot in d.operations :: slot in d'.operations && d'.operations[slot] == d.operations[slot]
  }

  lemma ProcessMoves(s: System, pid: Pid, p: Proc)
    requires Inv(s) && ProcOk(s.db, p)
    ensures Inv(Put(s, pid, p))
  {}

  /** One more read or staged batch. */
  lemma WorkKeepsOk(s: System, p: Proc, fate: Fate)
    requires ProcOk(s.db, p) && p.pc.Working?
    ensures ProcOk(s.db, p.Go(Work(s, p.command, p.pc, fate)))
  {
    var f := p.command.service;
    var a := f(p.pc.seen);
    if !a.Finish? && !a.Refuse? && fate.Acked? { TraceGrows(f, s.db.tables, p.pc.seen); }
  }

  lemma ChainGrows(log: seq<Entry>, t: Tables, e: Entry)
    requires Chained(log, t) && e.before == t
    ensures Chained(log + [e], e.after)
  {
    var grown := log + [e];
    forall i | 0 <= i < |grown| ensures Follows(grown, i) { if i < |log| { assert Follows(log, i); } }
  }

  lemma InLogGrows(log: seq<Entry>, e: Entry, slot: Slot)
    requires InLog(log, slot) || (e.Committed? && SlotOf(e.command) == slot)
    ensures InLog(log + [e], slot)
  {
    var grown := log + [e];
    if InLog(log, slot) {
      var i :| 0 <= i < |log| && log[i].Committed? && SlotOf(log[i].command) == slot;
      assert grown[i] == log[i];
    } else {
      assert grown[|log|] == e;
    }
  }

  ghost predicate EntriesRecorded(db: Db, log: seq<Entry>) {
    forall i | 0 <= i < |log| && log[i].Committed? :: Recorded(db, log[i])
  }

  ghost predicate SlotsDiffer(log: seq<Entry>) {
    forall i, j | 0 <= i < j < |log| && log[i].Committed? && log[j].Committed? ::
      SlotOf(log[i].command) != SlotOf(log[j].command)
  }

  lemma RecordsGrow(d: Db, d': Db, log: seq<Entry>, e: Entry)
    requires EntriesRecorded(d, log) && SlotsDiffer(log) && Extends(d, d')
    requires e.Committed? ==> SlotOf(e.command) !in d.operations && Recorded(d', e)
    ensures EntriesRecorded(d', log + [e]) && SlotsDiffer(log + [e])
  {}

  lemma LogGrows(s: System, db: Db, e: Entry)
    requires LogOk(s) && e.before == s.db.tables && e.after == db.tables && Atomic(e) && Extends(s.db, db)
    requires e.Committed? ==> SlotOf(e.command) !in s.db.operations && Recorded(db, e)
    requires forall slot | slot in db.operations ::
      slot in s.db.operations || (e.Committed? && SlotOf(e.command) == slot)
    ensures LogOk(s.(db := db, log := s.log + [e]))
  {
    ChainGrows(s.log, s.db.tables, e);
    RecordsGrow(s.db, db, s.log, e);
    forall slot | slot in db.operations ensures InLog(s.log + [e], slot) { InLogGrows(s.log, e, slot); }
    forall i | 0 <= i < |s.log + [e]| ensures Atomic((s.log + [e])[i]) { if i < |s.log| { assert Atomic(s.log[i]); } }
  }

  lemma RowsMove(s: System, db: Db, e: Entry)
    requires Inv(s) && LogOk(s.(db := db, log := s.log + [e])) && Extends(s.db, db)
    ensures Inv(s.(db := db, log := s.log + [e]))
  {}

  lemma CommitKeepsInv(s: System, pid: Pid, fate: Fate)
    requires Inv(s) && pid in s.procs && s.procs[pid].pc.Committing?
    ensures Inv(Commit(s, pid, s.procs[pid], fate)) && Extends(s.db, Commit(s, pid, s.procs[pid], fate).db)
  {
    var p := s.procs[pid];
    assert ProcOk(s.db, p);
    var db := CommitBatch(s.db, p.command, p.pc.guards, p.pc.writes, p.pc.target);
    if db.None? || fate.Failed? {
      ProcessMoves(s, pid, p.Go(Recovering(db.None? && fate.Acked?)));
    } else {
      var e := Committed(s.db.tables, db.value.tables, p.command, p.pc.seen, p.pc.target);
      GuardsMakeItRunAlone(p.command.service, p.pc.seen, p.pc.target, s.db.tables);
      assert Atomic(e);
      LogGrows(s, db.value, e);
      RowsMove(s, db.value, e);
      ProcessMoves(s.(db := db.value, log := s.log + [e]), pid,
                   p.Go(if fate.Acked? then Confirming else Recovering(false)));
    }
  }

  lemma TurnKeepsInv(s: System, pid: Pid, fate: Fate)
    requires Inv(s) && pid in s.procs
    ensures Inv(Await(s, pid, fate)) && Extends(s.db, Await(s, pid, fate).db)
  {
    var p := s.procs[pid];
    if p.pc.Committing? {
      CommitKeepsInv(s, pid, fate);
    } else {
      assert ProcOk(s.db, p);
      if p.pc.Working? { WorkKeepsOk(s, p, fate); }
      ProcessMoves(s, pid, Await(s, pid, fate).procs[pid]);
    }
  }

  lemma ChangeKeepsInv(s: System, t: Tables)
    requires Inv(s)
    ensures Inv(Step(s, Change(t)))
  {
    LogGrows(s, s.db.(tables := t), Outside(s.db.tables, t));
    RowsMove(s, s.db.(tables := t), Outside(s.db.tables, t));
  }

  lemma StepKeepsInv(s: System, e: Event)
    requires Inv(s)
    ensures Inv(Step(s, e)) && Extends(s.db, Step(s, e).db)
  {
    match e
    case Begin(pid, c) => if pid !in s.procs { ProcessMoves(s, pid, Proc(c, LookingUp)); }
    case Turn(pid, fate) => if pid in s.procs { TurnKeepsInv(s, pid, fate); }
    case Crash(pid) =>
      if pid in s.procs && !s.procs[pid].pc.Over? { ProcessMoves(s, pid, s.procs[pid].Go(Over(Failure))); }
    case Change(t) => ChangeKeepsInv(s, t);
  }

  lemma {:induction false} RunKeepsInv(s: System, es: seq<Event>)
    requires Inv(s)
    ensures Inv(Run(s, es)) && Extends(s.db, Run(s, es).db)
    decreases es
  {
    if es != [] {
      StepKeepsInv(s, es[0]);
      RunKeepsInv(Step(s, es[0]), es[1..]);
    }
  }

  // ---- Main results --------------------------------------------------------

  /**
   * Serializability: the tables are what the log makes of them, one entry after
   * the other, and every command in the log is its service run alone on the
   * tables its entry starts from, with exactly its writes applied.
   */
  lemma CommandsAreSerializable(es: seq<Event>)
    ensures
      var s := Run(START, es);
      && Chained(s.log, s.db.tables)
      && forall i | 0 <= i < |s.log| :: Atomic(s.log[i])
  {
    RunKeepsInv(START, es);
  }

  /**
   * Re-running the service on the state its batch committed at gives the same
   * reads, the same writes and the same target.
   */
  lemma RerunGivesTheSame(es: seq<Event>, i: nat, seen: seq<Seen>, target: nat)
    requires i < |Run(START, es).log| && Run(START, es).log[i].Committed?
    requires var e := Run(START, es).log[i]; RunsAlone(e.command.service, e.before, seen, target)
    ensures var e := Run(START, es).log[i]; seen == e.seen && target == e.target
    ensures var e := Run(START, es).log[i]; Apply(WritesOf(e.command.service, seen), e.before) == Some(e.after)
  {
    RunKeepsInv(START, es);
    var e := Run(START, es).log[i];
    assert Atomic(e);
    RunsAloneIsUnique(e.command.service, e.before, seen, target, e.seen, e.target);
  }

  /** Each subject and idempotency key applies its writes at most once. */
  lemma AppliedAtMostOnce(es: seq<Event>)
    ensures
      var log := Run(START, es).log;
      forall i, j | 0 <= i < j < |log| && log[i].Committed? && log[j].Committed? ::
        SlotOf(log[i].command) != SlotOf(log[j].command)
  {
    RunKeepsInv(START, es);
  }

  /**
   * Answers are true: whoever gets a receipt gets the one stored for that
   * subject and key, for a command with the same fingerprint that is in the
   * log; a conflict is reported only against a different fingerprint.
   */
  lemma AnswersAreStored(es: seq<Event>, pid: Pid)
    requires pid in Run(START, es).procs && Run(START, es).procs[pid].pc.Over?
    ensures
      var s := Run(START, es);
      var p := s.procs[pid];
      && (p.pc.answer.Receipt? ==>
            && SlotOf(p.command) in s.db.operations
            && s.db.operations[SlotOf(p.command)] == Operation(p.command.hash, p.pc.answer.receipt)
            && InLog(s.log, SlotOf(p.command)))
      && (p.pc.answer.Conflict? ==>
            SlotOf(p.command) in s.db.operations && s.db.operations[SlotOf(p.command)].hash != p.command.hash)
  {
    RunKeepsInv(START, es);
    assert ProcOk(Run(START, es).db, Run(START, es).procs[pid]);
  }

  /** Once an operation is stored, a later call's first look answers from it, with the very receipt, forever. */
  lemma LaterCallsReplay(es: seq<Event>, more: seq<Event>, c: Command)
    requires SlotOf(c) in Run(START, es).db.operations
    ensures
      var op := Run(START, es).db.operations[SlotOf(c)];
      Stored(Run(Run(START, es), more).db, c) == Some(if op.hash == c.hash then Receipt(op.receipt, true) else Conflict)
  {
    RunKeepsInv(START, es);
    RunKeepsInv(Run(START, es), more);
  }

  /** No staged first() leaves further rows behind on these tables. */
  ghost predicate NoRowsSkipped(f: Service, t: Tables, seen: seq<Seen>) {
    forall i | 0 <= i < |seen| && f(seen[..i]).First? :: |f(seen[..i]).q(t)| <= 1
  }

  lemma {:induction false} UnskippedGuardsHold(f: Service, seen: seq<Seen>, t: Tables, n: nat)
    requires n <= |seen| && (forall i | 0 <= i < |seen| :: Continues(f, t, seen, i)) && NoRowsSkipped(f, t, seen)
    ensures AllHold(GuardsOf(f, seen[..n]), t)
  {
    if n > 0 {
      UnskippedGuardsHold(f, seen, t, n - 1);
      assert seen[..n][..n - 1] == seen[..n - 1];
      assert Continues(f, t, seen, n - 1);
      var a := f(seen[..n - 1]);
      if a.First? { assert FirstRow(a.q(t)) == a.q(t); }
    }
  }

  lemma GuardOfFirst(f: Service, seen: seq<Seen>, i: nat, t: Tables)
    requires WasShown(f, seen) && i < |seen| && f(seen[..i]).First? && AllHold(GuardsOf(f, seen), t)
    ensures |f(seen[..i]).q(t)| <= 1
  {
    assert ShownAt(f, seen, i);
    GuardIsRecorded(f, seen, i, t);
    assert Holds(GuardFor(f(seen[..i]), seen[i])[0], t);
  }

  /**
   * What the recorded guards check, for every trace and all tables: they hold
   * exactly when the service run again here sees the same, and no first()
   * leaves rows behind - its guard compares the whole result with the one row.
   */
  lemma GuardsHoldIff(f: Service, seen: seq<Seen>, target: nat, t: Tables)
    requires WasShown(f, seen) && f(seen) == Finish(target)
    ensures AllHold(GuardsOf(f, seen), t) <==> RunsAlone(f, t, seen, target) && NoRowsSkipped(f, t, seen)
  {
    if AllHold(GuardsOf(f, seen), t) {
      GuardsMakeItRunAlone(f, seen, target, t);
      forall i | 0 <= i < |seen| && f(seen[..i]).First?
        ensures |f(seen[..i]).q(t)| <= 1
      {
        GuardOfFirst(f, seen, i, t);
      }
    }
    if RunsAlone(f, t, seen, target) && NoRowsSkipped(f, t, seen) {
      UnskippedGuardsHold(f, seen, t, |seen|);
      assert seen[..|seen|] == seen;
    }
  }

  lemma RunAloneWasShown(f: Service, t: Tables, seen: seq<Seen>, target: nat)
    requires RunsAlone(f, t, seen, target)
    ensures WasShown(f, seen)
  {
    forall i | 0 <= i < |seen| ensures ShownAt(f, seen, i) { assert Continues(f, t, seen, i); }
  }

  /**
   * A command nobody disturbs, whose slot is free, whose writes pass and whose
   * receipt is there, commits exactly when none of its first() reads skips rows.
   */
  lemma UndisturbedCommitsIff(db: Db, c: Command, seen: seq<Seen>, target: nat)
    requires RunsAlone(c.service, db.tables, seen, target) && SlotOf(c) !in db.operations
    requires
      var after := Apply(WritesOf(c.service, seen), db.tables);
      after.Some? && c.render(target, after.value).Some?
    ensures CommitBatch(db, c, GuardsOf(c.service, seen), WritesOf(c.service, seen), target).Some?
      <==> NoRowsSkipped(c.service, db.tables, seen)
  {
    RunAloneWasShown(c.service, db.tables, seen, target);
    GuardsHoldIff(c.service, seen, target, db.tables);
  }

  /** Every first() of the service selects at most one row: by primary key, or with a limit of one. */
  ghost predicate SelectsOne(f: Service) { forall seen, t | f(seen).First? :: |f(seen).q(t)| <= 1 }

  /** The services of the application select one row at a time, so a command nobody disturbs commits. */
  lemma SelectingOneCommits(db: Db, c: Command, seen: seq<Seen>, target: nat)
    requires SelectsOne(c.service) && RunsAlone(c.service, db.tables, seen, target) && SlotOf(c) !in db.operations
    requires
      var after := Apply(WritesOf(c.service, seen), db.tables);
      after.Some? && c.render(target, after.value).Some?
    ensures CommitBatch(db, c, GuardsOf(c.service, seen), WritesOf(c.service, seen), target).Some?
  {
    UndisturbedCommitsIff(db, c, seen, target);
  }

  /** A service that asks for the first of two rows and finishes. */
  function AskFirstOfTwo(seen: seq<Seen>): Action { if seen == [] then First((_: Tables) => [1, 2]) else Finish(0) }

  /** It never commits, on any database. */
  lemma FirstOfTwoNeverCommits(db: Db)
    ensures
      var c := Command(1, 1, 1, AskFirstOfTwo, (_, _) => Some(0));
      var seen := [Rows([1])];
      && RunsAlone(AskFirstOfTwo, db.tables, seen, 0)
      && CommitBatch(db, c, GuardsOf(AskFirstOfTwo, seen), WritesOf(AskFirstOfTwo, seen), 0).None?
  {
    var seen := [Rows([1])];
    assert seen[..0] == [];
    assert FirstRow([1, 2]) == [1];
    assert forall i | 0 <= i < |seen| :: Continues(AskFirstOfTwo, db.tables, seen, i);
    assert |AskFirstOfTwo(seen[..0]).q(db.tables)| == 2;
    assert !NoRowsSkipped(AskFirstOfTwo, db.tables, seen);
    RunAloneWasShown(AskFirstOfTwo, db.tables, seen, 0);
    GuardsHoldIff(AskFirstOfTwo, seen, 0, db.tables);
  }

  // ---- The databases -----------------------------------------------------------------

  class Database {
    var tables: Tables
    var operations: map<Slot, Operation>

    ghost function Value(): Db
      reads this
    {
      Db(tables, operations)
    }

    constructor ()
      ensures Value() == Db(map[], map[])
    {
      tables, operations := map[], map[];
    }

    /** One batch: rechecks every guard, then applies every write; any failure restores the tables. */
    method Commit(c: Command, guards: seq<Guard>, writes: seq<Write>, target: nat) returns (done: bool)
      modifies this
      ensures var r := CommitBatch(old(Value()), c, guards, writes, target);
        if r.None? then !done && Value() == old(Value()) else done && Value() == r.value
    {
      var slot := Slot(c.subject, c.key);
      if slot in operations { return false; }
      var i := 0;
      while i < |guards|
        invariant 0 <= i <= |guards| && Value() == old(Value())
        invariant forall k | 0 <= k < i :: Holds(guards[k], tables)
      {
        if guards[i].q(tables) != guards[i].rows {
          assert !Holds(guards[i], tables);
          return false;
        }
        i := i + 1;
      }
      var before := tables;
      var j := 0;
      while j < |writes|
        invariant 0 <= j <= |writes| && operations == old(operations)
        invariant Apply(writes[..j], before) == Some(tables)
      {
        var next := writes[j](tables);
        assert writes[..j + 1][..j] == writes[..j];
        if next.None? {
          FailedPrefix(writes, j + 1, before);
          tables := before;
          return false;
        }
        tables := next.value;
        j := j + 1;
      }
      assert writes[..j] == writes;
      var receipt := c.render(target, tables);
      if receipt.None? {
        tables := before;
        return false;
      }
      operations := operations[slot := Operation(c.hash, receipt.value)];
      done := true;
    }
  }

  /** A write that fails fails the whole batch. */
  lemma {:induction false} FailedPrefix(ws: seq<Write>, n: nat, t: Tables)
    requires n <= |ws| && Apply(ws[..n], t).None?
    ensures Apply(ws, t).None?
    decreases |ws| - n
  {
    if n < |ws| {
      assert ws[..n + 1][..n] == ws[..n];
      FailedPrefix(ws, n + 1, t);
    } else {
      assert ws[..n] == ws;
    }
  }

  /**
   * The stand-in database one service runs on: reads go through and are
   * recorded, writes are held back. seen is what the service was shown so far.
   */
  class StagingDatabase {
    const source: Database
    const command: Command
    var guards: seq<Guard>
    var writes: seq<Write>
    ghost var seen: seq<Seen>

    /** Guards and writes are those of the trace, read by read and batch by batch. */
    ghost predicate Valid()
      reads this
    {
      && WasShown(command.service, seen)
      && guards == GuardsOf(command.service, seen) && writes == WritesOf(command.service, seen)
    }

    constructor (source: Database, command: Command)
      ensures this.source == source && this.command == command && Valid() && seen == []
    {
      this.source, this.command := source, command;
      guards, writes, seen := [], [], [];
    }

    /** One more action of the service and what it was shown. */
    ghost method Remember(shown: Seen)
      requires WasShown(command.service, seen)
      requires var a := command.service(seen); !a.Finish? && !a.Refuse? && shown == Show(a, source.tables)
      modifies `seen
      ensures seen == old(seen) + [shown] && WasShown(command.service, seen)
      ensures GuardsOf(command.service, seen) ==
        GuardsOf(command.service, old(seen)) + GuardFor(command.service(old(seen)), shown)
      ensures WritesOf(command.service, seen) ==
        WritesOf(command.service, old(seen)) + WritesFor(command.service(old(seen)))
    {
      TraceGrows(command.service, source.tables, seen);
      seen := seen + [shown];
      assert seen[..|seen| - 1] == old(seen);
    }

    method ReadAll(q: Query) returns (rows: seq<nat>)
      requires Valid() && command.service(seen) == All(q)
      modifies this
      ensures Valid() && seen == old(seen) + [Rows(rows)] && rows == q(source.tables)
    {
      rows := q(source.tables);
      guards := guards + [Guard(q, rows)];
      Remember(Rows(rows));
    }

    method ReadFirst(q: Query) returns (row: seq<nat>)
      requires Valid() && command.service(seen) == First(q)
      modifies this
      ensures Valid() && seen == old(seen) + [Rows(row)] && |row| <= 1
      ensures if row == [] then q(source.tables) == [] else q(source.tables) != [] && row[0] == q(source.tables)[0]
    {
      var rows := q(source.tables);
      row := if rows == [] then [] else [rows[0]];
      guards := guards + [Guard(q, row)];
      Remember(Rows(row));
    }

    method Batch(ws: seq<Write>)
      requires Valid() && command.service(seen) == Stage(ws)
      modifies this
      ensures Valid() && seen == old(seen) + [Staged] && source.Value() == old(source.Value())
    {
      writes := writes + ws;
      Remember(Staged);
    }

    /**
     * The service has finished: its command is committed. When that succeeds,
     * the service run alone on the tables as they were would have seen the same,
     * and the tables are now those with its writes applied.
     */
    method Finish(target: nat) returns (done: bool)
      requires Valid() && command.service(seen) == Action.Finish(target)
      modifies source
      ensures !done ==> source.Value() == old(source.Value())
      ensures done ==> RunsAlone(command.service, old(source.tables), seen, target)
      ensures done ==> Apply(WritesOf(command.service, seen), old(source.tables)) == Some(source.tables)
      ensures done ==> Stored(source.Value(), command).Some? && Stored(old(source.Value()), command).None?
    {
      if AllHold(guards, source.tables) { GuardsMakeItRunAlone(command.service, seen, target, source.tables); }
      done := source.Commit(command, guards, writes, target);
    }
  }
}
