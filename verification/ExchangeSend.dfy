/**
 * Senders and reconcilers of any number of commands, interleaved at every
 * await. The connection row may change arbitrarily between awaits: send-once
 * rests on the send-state row alone.
 */
module ExchangeSend {
  import opened Wrappers
  import opened ExchangeConnectionStore
  import opened ExchangeSendStore

  type Pid = nat

  datatype Item = Item(id: nat, conversation: Option<nat>)

  /** What the provider answers; a submitted or refused call, or a search result. */
  datatype Io =
    | DraftCreated(id: nat, conv: nat)
    | Refused
    | Uncertain
    | Submitted
    | Found(complete: bool, drafts: seq<Item>, sent: seq<Item>)

  datatype Reason = Incomplete | NoSentItem | Ambiguous | IdentityConflict | SentIncomplete

  datatype Verdict = AcceptAs(id: nat, conv: nat) | Review(reason: Reason, discovered: Option<nat>)

  datatype Answer = Resolved(id: nat) | InReview(why: Reason)

  datatype Pc =
    // the sender
    | Creating
    | Drafting(version: nat)
    | Recording(version: nat, draft: nat, conv: nat)
    | Requesting(version: nat, draft: nat, conv: nat)
    | Submitting(version: nat, draft: nat, conv: nat)
    | Accepting(version: nat, draft: nat, conv: nat)
    | SettlingCreate(version: nat, to: Phase)
    | SettlingSubmit(version: nat, draft: nat, to: Phase)
    | MarkingSent(draft: nat, conv: nat)
    | MarkingFallback(draft: nat)
    | MarkingCanary(draft: nat)
    // the reconciler
    | LoadingCommand
    | LoadingState(cmd: Command)
    | Searching(cmd: Command, state: SendState)
    | CheckingIdentity(cmd: Command, state: SendState, id: nat, conv: nat)
    | Claiming(cmd: Command, state: SendState, id: nat, conv: nat)
    | ObservingClaim(cmd: Command, id: nat, conv: nat)
    | MarkingReconciled(id: nat, conv: nat)
    | ReloadingMarked(id: nat, conv: nat)
    | Reviewing(state: SendState, reason: Reason, discovered: Option<nat>)
    | ObservingReview(reason: Reason)
    | MarkingManual(reason: Reason)
    | ReloadingManual(reason: Reason)
    | Answered(answer: Answer)
    | Over

  /** canary: the sender is the deliverability canary, which records its result itself. */
  datatype Proc = Proc(command: Guid, writer: Writer, canary: bool, pc: Pc)
  {
    function Go(next: Pc): Proc { this.(pc := next) }
  }

  /** The one process whose insert created the send-state row, until it ends. */
  predicate Engaged(pc: Pc) {
    || pc.Drafting? || pc.Recording? || pc.Requesting? || pc.Submitting? || pc.Accepting?
    || pc.SettlingCreate? || pc.SettlingSubmit?
  }

  /** created and submitted list every provider mutation ever requested, in order. */
  datatype System = System(d: SendDb, procs: map<Pid, Proc>, created: seq<Guid>, submitted: seq<(Guid, nat)>)

  const START := System(SendDb(EMPTY, map[], map[]), map[], [], [])

  datatype Event =
    | Send(pid: Pid, command: Guid, writer: Writer, canary: bool)
    | Reconcile(pid: Pid, command: Guid, writer: Writer)
    | Turn(pid: Pid, fate: Fate, now: Time, io: Io)
    | Crash(pid: Pid)
    | Rows(rows: Db)                          // connects, refreshes, leases, disconnects
    | SetCommand(command: Guid, to: Command)  // the rest of the application

  function Failure(io: Io): Phase { if io.Uncertain? then Unknown else Rejected }

  /** What the adjudication concludes from what it read. */
  function Adjudicate(cmd: Command, state: SendState, io: Io): Verdict
    requires io.Found?
  {
    var draft := if |io.drafts| == 1 then Some(io.drafts[0]) else None;
    var item := if |io.sent| == 1 then Some(io.sent[0]) else None;
    var conflict :=
      || (draft.Some? && state.graphId.Some? && state.graphId.value != draft.value.id)
      || (item.Some? && state.graphId.Some? && state.graphId.value != item.value.id)
      || (item.Some? && cmd.providerId.Some? && cmd.providerId.value != item.value.id)
      || (item.Some? && item.value.conversation.Some? && cmd.conversation.Some?
          && cmd.conversation != item.value.conversation);
    if io.complete && |io.drafts| == 0 && item.Some? && item.value.conversation.Some? && !conflict
    then AcceptAs(item.value.id, item.value.conversation.value)
    else
      Review(if !io.complete then Incomplete
             else if conflict then IdentityConflict
             else if |io.sent| > 1 || |io.drafts| > 1 || (|io.sent| == 1 && |io.drafts| != 0) then Ambiguous
             else if item.Some? && item.value.conversation.None? then SentIncomplete
             else NoSentItem,
             if io.complete && |io.sent| == 0 && |io.drafts| == 1 then Some(io.drafts[0].id) else None)
  }

  /** A command already known to be sent: nothing is asked of the provider. */
  predicate AlreadyAccepted(cmd: Command, state: SendState) {
    && state.phase == Accepted && cmd.status == Sent && cmd.providerId.Some?
    && state.graphId == cmd.providerId && cmd.conversation.Some?
  }

  predicate Adjudicable(cmd: Command, state: SendState, command: Guid) {
    && cmd.exchange && cmd.authorized && cmd.snapshotValid && (cmd.status.Dispatching? || cmd.status.Sent?)
    && state.correlation == command && state.phase != Rejected
  }

  /** The arguments of one durable transition. */
  datatype Ask = Ask(version: nat, from: Phase, to: Phase, graphId: Option<nat>)

  /** The transition each waiting place of the two programs asks for. */
  function Asked(pc: Pc): Ask {
    match pc
    case Recording(v, draft, _) => Ask(v, Prepared, Drafted, Some(draft))
    case Requesting(v, draft, _) => Ask(v, Drafted, SendRequested, Some(draft))
    case Accepting(v, draft, _) => Ask(v, SendRequested, Accepted, Some(draft))
    case SettlingCreate(v, to) => Ask(v, Prepared, to, None)
    case SettlingSubmit(v, draft, to) => Ask(v, SendRequested, to, Some(draft))
    case Claiming(_, state, id, _) => Ask(state.version, state.phase, Accepted, Some(id))
    case Reviewing(state, _, discovered) => Ask(state.version, state.phase, ManualReview, discovered)
    case _ => Ask(0, Accepted, Accepted, None)
  }

  function Kept(d: SendDb, d': SendDb, fate: Fate): SendDb { if fate.Effective() then d' else d }

  /** The rows after a process attempts its transition, and what the process learns. */
  function Attempt(d: SendDb, p: Proc, fate: Fate, now: Time): (SendDb, Updated) {
    var a := Asked(p.pc);
    var (d', r) := Transition(d, p.writer, p.command, a.version, a.from, a.to, a.graphId, now);
    (Kept(d, d', fate), if fate.Acked? then r else NoRow)
  }

  /** One await of the sender: the new rows and where it goes on. */
  function SenderMove(d: SendDb, p: Proc, e: Event): (SendDb, Pc)
    requires e.Turn?
  {
    var (d', r) := Attempt(d, p, e.fate, e.now);
    match p.pc
    case Creating =>
      var (made, row) := CreateSendState(d, p.writer, p.command, p.command, e.now);
      (Kept(d, made, e.fate), if e.fate.Acked? && row.Some? then Drafting(row.value.version) else Over)
    case Drafting(v) =>
      (d, if e.io.DraftCreated? then Recording(v, e.io.id, e.io.conv) else SettlingCreate(v, Failure(e.io)))
    case Recording(v, draft, conv) => (d', if r.Row? then Requesting(r.state.version, draft, conv) else Over)
    case Requesting(v, draft, conv) => (d', if r.Row? then Submitting(r.state.version, draft, conv) else Over)
    case Submitting(v, draft, conv) =>
      (d, if e.io.Submitted? then Accepting(v, draft, conv) else SettlingSubmit(v, draft, Failure(e.io)))
    case Accepting(v, draft, conv) =>
      (d', if !r.Row? then Over else if p.canary then MarkingCanary(draft) else MarkingSent(draft, conv))
    case SettlingCreate(_, _) => (d', Over)
    case SettlingSubmit(_, _, _) => (d', Over)
    case MarkingSent(draft, conv) =>
      var (marked, ok) := MarkSent(d, p.command, draft, conv);
      (Kept(d, marked, e.fate), if e.fate.Acked? && ok then Over else MarkingFallback(draft))
    case MarkingFallback(draft) => (Kept(d, MarkSentFallback(d, p.command, draft), e.fate), Over)
    case MarkingCanary(draft) => (Kept(d, MarkCanary(d, p.command, draft), e.fate), Over)
    case _ => (d, p.pc)
  }

  /** The reads of an adjudication up to its verdict; a failed read ends it. */
  function AdjudicationRead(d: SendDb, p: Proc, io: Io): Pc {
    var c := p.command;
    match p.pc
    case LoadingCommand => if c in d.commands then LoadingState(d.commands[c]) else Over
    case LoadingState(cmd) =>
      if c !in d.states || d.states[c].scope != p.writer.scope || !Adjudicable(cmd, d.states[c], c) then Over
      else if AlreadyAccepted(cmd, d.states[c]) then Answered(Resolved(cmd.providerId.value))
      else Searching(cmd, d.states[c])
    case Searching(cmd, state) =>
      if !io.Found? then Over else
      (match Adjudicate(cmd, state, io)
       case AcceptAs(id, conv) => CheckingIdentity(cmd, state, id, conv)
       case Review(reason, discovered) =>
         if state.phase.ManualReview? || state.phase.Accepted? then MarkingManual(reason)
         else Reviewing(state, reason, if state.graphId.None? || state.graphId == discovered then discovered else None))
    case CheckingIdentity(cmd, state, id, conv) =>
      if IdTaken(d, c, id) then Over
      else if state.phase != Accepted then Claiming(cmd, state, id, conv)
      else if state.graphId == Some(id) then MarkingReconciled(id, conv) else Over
    case _ => p.pc
  }

  /** The reads that settle an uncertain local write. */
  function SettlingRead(d: SendDb, p: Proc): Pc {
    var c := p.command;
    match p.pc
    case ObservingClaim(cmd, id, conv) =>
      if c in d.states && d.states[c].phase == Accepted && d.states[c].graphId == Some(id)
      then MarkingReconciled(id, conv) else Over
    case ReloadingMarked(id, conv) =>
      if c in d.commands && d.commands[c].status == Sent && d.commands[c].providerId == Some(id)
         && d.commands[c].conversation == Some(conv)
      then Answered(Resolved(id)) else Over
    case ObservingReview(reason) =>
      if c in d.states && d.states[c].phase == ManualReview then MarkingManual(reason) else Over
    case ReloadingManual(reason) =>
      if c in d.commands && d.commands[c].status == Dispatching && d.commands[c].providerId.None?
         && d.commands[c].manualMark
      then Answered(InReview(reason)) else Over
    case _ => p.pc
  }

  /** The local repairs of an adjudication. */
  function RepairMove(d: SendDb, p: Proc, e: Event): (SendDb, Pc)
    requires e.Turn?
  {
    var (d', r) := Attempt(d, p, e.fate, e.now);
    match p.pc
    case Claiming(cmd, state, id, conv) =>
      (d', if !r.Row? then ObservingClaim(cmd, id, conv)
           else if r.state.graphId == Some(id) then MarkingReconciled(id, conv) else Over)
    case MarkingReconciled(id, conv) =>
      var (marked, row, violated) := MarkReconciled(d, p.command, id, conv);
      (Kept(d, marked, e.fate),
       if e.fate.Acked? && row.Some? then Answered(Resolved(id)) else ReloadingMarked(id, conv))
    case Reviewing(state, reason, discovered) => (d', if r.Row? then MarkingManual(reason) else ObservingReview(reason))
    case MarkingManual(reason) => (Kept(d, MarkManual(d, p.command), e.fate), ReloadingManual(reason))
    case _ => (d, p.pc)
  }

  predicate IsMarking(pc: Pc) { pc.MarkingSent? || pc.MarkingFallback? || pc.MarkingCanary? }

  predicate IsSender(pc: Pc) { pc.Creating? || Engaged(pc) || IsMarking(pc) }

  predicate IsRepair(pc: Pc) { pc.Claiming? || pc.MarkingReconciled? || pc.Reviewing? || pc.MarkingManual? }

  predicate IsAdjudicating(pc: Pc) { pc.LoadingCommand? || pc.LoadingState? || pc.Searching? || pc.CheckingIdentity? }

  predicate Ended(pc: Pc) { pc.Over? || pc.Answered? }

  function Move(d: SendDb, p: Proc, e: Event): (SendDb, Pc)
    requires e.Turn?
  {
    if Ended(p.pc) then (d, p.pc)
    else if IsSender(p.pc) then SenderMove(d, p, e)
    else if IsRepair(p.pc) then RepairMove(d, p, e)
    else if !e.fate.Acked? then (d, Over)
    else (d, if IsAdjudicating(p.pc) then AdjudicationRead(d, p, e.io) else SettlingRead(d, p))
  }

  function Put(s: System, pid: Pid, p: Proc): System { s.(procs := s.procs[pid := p]) }

  /** What a process that leaves this place has asked of the provider. */
  function Logged(s: System, p: Proc): System {
    if p.pc.Drafting? then s.(created := s.created + [p.command])
    else if p.pc.Submitting? then s.(submitted := s.submitted + [(p.command, p.pc.draft)])
    else s
  }

  function Step(s: System, e: Event): System {
    match e
    case Send(pid, c, w, canary) => if pid in s.procs then s else Put(s, pid, Proc(c, w, canary, Creating))
    case Reconcile(pid, c, w) => if pid in s.procs then s else Put(s, pid, Proc(c, w, false, LoadingCommand))
    case Turn(pid, _, _, _) =>
      if pid !in s.procs then s else
      var (d, pc) := Move(s.d, s.procs[pid], e);
      Put(Logged(s.(d := d), s.procs[pid]), pid, s.procs[pid].Go(pc))
    case Crash(pid) => if pid in s.procs && !s.procs[pid].pc.Answered? then Put(s, pid, s.procs[pid].Go(Over)) else s
    case Rows(rows) => s.(d := s.d.(rows := rows))
    case SetCommand(c, to) =>
      // The send route, the canary and the reconciler are steps of their own; nobody else marks an
      // Exchange command sent, gives it a provider id, or touches one that is sent.
      if to.status == Sent || to.providerId.Some? || (c in s.d.commands && IsMarked(s.d.commands[c])) then s
      else s.(d := s.d.(commands := s.d.commands[c := to]))
  }

  predicate IsMarked(c: Command) { c.status == Sent || c.providerId.Some? }

  function Run(s: System, es: seq<Event>): System
    decreases es
  {
    if es == [] then s else Run(Step(s, es[0]), es[1..])
  }

  // ---- The send-state rows over a step and over a run -----------------------

  /** A row is kept, or it moved strictly up by one transition, and its graph id is never rewritten. */
  predicate Climbs(a: SendState, b: SendState) {
    && b.scope == a.scope && b.correlation == a.correlation
    && (a.graphId.Some? ==> b.graphId == a.graphId)
    && a.version <= b.version
    && Rank(a.phase) + (b.version - a.version) <= Rank(b.phase)
    && (a.version == b.version ==> a == b)
  }

  predicate RowsClimb(d: SendDb, d': SendDb) {
    forall c | c in d.states :: c in d'.states && Climbs(d.states[c], d'.states[c])
  }

  predicate RowOk(r: SendState) {
    r.version <= Rank(r.phase) && (NeedsGraphId(r.phase) ==> r.graphId.Some?)
  }

  lemma TransitionClimbs(d: SendDb, w: Writer, c: Guid, v: nat, from: Phase, to: Phase, g: Option<nat>, now: Time)
    ensures var (d', r) := Transition(d, w, c, v, from, to, g, now);
      && d'.commands == d.commands && d'.rows == d.rows && d'.states.Keys == d.states.Keys && RowsClimb(d, d')
      && (r.Row? ==>
            c in d'.states && d'.states[c] == r.state && r.state.phase == to && (g.Some? ==> r.state.graphId == g))
  {}

  lemma TransitionKeepsRows(d: SendDb, w: Writer, c: Guid, v: nat, from: Phase, to: Phase, g: Option<nat>, now: Time)
    requires forall x | x in d.states :: RowOk(d.states[x])
    ensures var d' := Transition(d, w, c, v, from, to, g, now).0; forall x | x in d'.states :: RowOk(d'.states[x])
  {}

  /** The unique index on graph ids does its work. */
  lemma TransitionKeepsUnique(d: SendDb, w: Writer, c: Guid, v: nat, from: Phase, to: Phase, g: Option<nat>, now: Time)
    requires GraphIdsUnique(d)
    ensures GraphIdsUnique(Transition(d, w, c, v, from, to, g, now).0)
  {}

  // ---- The invariant -------------------------------------------------------

  predicate AcceptedAs(d: SendDb, c: Guid, id: nat) {
    c in d.states && d.states[c].phase == Accepted && d.states[c].graphId == Some(id)
  }

  predicate ResolvedAs(d: SendDb, c: Guid, id: nat) {
    && AcceptedAs(d, c, id)
    && c in d.commands && d.commands[c].status == Sent && d.commands[c].providerId == Some(id)
    && d.commands[c].conversation.Some?
  }

  /** The row carries this draft's id and has come at least this far. */
  predicate Reached(d: SendDb, c: Guid, draft: nat, rank: nat) {
    c in d.states && d.states[c].graphId == Some(draft) && Rank(d.states[c].phase) >= rank
  }

  /** A command as read earlier: what it said about being sent still holds. */
  predicate CommandPast(cmd: Command, d: SendDb, c: Guid) {
    cmd.status == Sent ==>
      && c in d.commands && d.commands[c].status == Sent && d.commands[c].providerId == cmd.providerId
      && (cmd.conversation.Some? ==> d.commands[c].conversation.Some?)
  }

  predicate StatePast(state: SendState, d: SendDb, c: Guid) {
    c in d.states && Climbs(state, d.states[c])
  }

  /** A command is sent exactly when it has a provider id, and then under the id its accepted row carries. */
  predicate CommandOk(d: SendDb, c: Guid)
    requires c in d.commands
  {
    && (d.commands[c].status == Sent <==> d.commands[c].providerId.Some?)
    && (d.commands[c].status == Sent ==> AcceptedAs(d, c, d.commands[c].providerId.value))
  }

  ghost predicate DbOk(d: SendDb) {
    && (forall c | c in d.states :: RowOk(d.states[c]))
    && GraphIdsUnique(d)
    && (forall c | c in d.commands :: CommandOk(d, c))
    && ProviderIdsUnique(d)
  }

  ghost predicate NotSubmitted(s: System, c: Guid) {
    forall i | 0 <= i < |s.submitted| :: s.submitted[i].0 != c
  }

  /** The process may still submit. */
  predicate MaySubmit(pc: Pc) { pc.Drafting? || pc.Recording? || pc.Requesting? || pc.Submitting? }

  /** What a process knows about the rows. */
  predicate Knows(d: SendDb, c: Guid, pc: Pc) {
    && (Engaged(pc) ==> c in d.states)
    && match pc
       case Requesting(_, draft, _) => Reached(d, c, draft, 1)
       case Submitting(_, draft, _) => Reached(d, c, draft, 2)
       case MarkingSent(draft, _) => AcceptedAs(d, c, draft)
       case MarkingFallback(draft) => AcceptedAs(d, c, draft)
       case MarkingCanary(draft) => AcceptedAs(d, c, draft)
       case LoadingState(cmd) => CommandPast(cmd, d, c)
       case Searching(cmd, state) => CommandPast(cmd, d, c) && StatePast(state, d, c)
       case CheckingIdentity(cmd, state, _, _) => StatePast(state, d, c)
       case MarkingReconciled(id, _) => AcceptedAs(d, c, id)
       case ReloadingMarked(id, _) => AcceptedAs(d, c, id)
       case Answered(a) => a.Resolved? ==> ResolvedAs(d, c, a.id)
       case _ => true
  }

  /** What it may still ask of the provider was not asked before. */
  ghost predicate HasRight(s: System, p: Proc) {
    && (p.pc.Drafting? ==> p.command !in s.created)
    && (MaySubmit(p.pc) ==> NotSubmitted(s, p.command))
  }

  ghost predicate ProcOk(s: System, p: Proc) { Knows(s.d, p.command, p.pc) && HasRight(s, p) }

  ghost predicate SubmittedOnce(calls: seq<(Guid, nat)>) {
    forall i, j | 0 <= i < j < |calls| :: calls[i].0 != calls[j].0
  }

  ghost predicate OneEngaged(s: System) {
    forall p, q | p in s.procs && q in s.procs && p != q && Engaged(s.procs[p].pc) && Engaged(s.procs[q].pc) ::
      s.procs[p].command != s.procs[q].command
  }

  ghost predicate CallsOk(s: System) {
    && Distinct(s.created) && SubmittedOnce(s.submitted)
    && (forall i | 0 <= i < |s.created| :: s.created[i] in s.d.states)
    && (forall i | 0 <= i < |s.submitted| :: Reached(s.d, s.submitted[i].0, s.submitted[i].1, 2))
  }

  ghost predicate Inv(s: System) {
    && DbOk(s.d) && OneEngaged(s) && CallsOk(s)
    && forall p | p in s.procs :: ProcOk(s, s.procs[p])
  }

  // ---- What one await does to the rows -------------------------------------

  /** Rows climb, and a sent command stays sent under the same id. */
  predicate Grows(d: SendDb, d': SendDb) {
    && RowsClimb(d, d')
    && (forall c | c in d.commands :: CommandPast(d.commands[c], d', c))
  }

  lemma KnowledgeLasts(d: SendDb, d': SendDb, c: Guid, pc: Pc)
    requires Knows(d, c, pc) && Grows(d, d') && forall x | x in d'.states :: RowOk(d'.states[x])
    ensures Knows(d', c, pc)
  {}

  /** An await that neither engages the process nor asks the provider for anything. */
  predicate KeepsRights(pc: Pc, pc': Pc) {
    && (Engaged(pc') ==> Engaged(pc)) && !pc'.Drafting?
    && (MaySubmit(pc') ==> MaySubmit(pc))
  }

  ghost predicate Sound(d: SendDb, c: Guid, d': SendDb, pc': Pc) {
    DbOk(d') && Grows(d, d') && Knows(d', c, pc')
  }

  lemma Unchanged(d: SendDb)
    requires DbOk(d)
    ensures Grows(d, d)
  {}

  lemma AttemptFacts(d: SendDb, p: Proc, fate: Fate, now: Time)
    requires DbOk(d)
    ensures var (d', r) := Attempt(d, p, fate, now);
      var a := Asked(p.pc);
      && DbOk(d') && Grows(d, d')
      && (r.Row? ==> p.command in d'.states && d'.states[p.command] == r.state && r.state.phase == a.to)
      && (r.Row? && a.graphId.Some? ==> r.state.graphId == a.graphId)
      && (p.command in d.states ==> p.command in d'.states)
  {
    var a := Asked(p.pc);
    TransitionClimbs(d, p.writer, p.command, a.version, a.from, a.to, a.graphId, now);
    TransitionKeepsRows(d, p.writer, p.command, a.version, a.from, a.to, a.graphId, now);
    TransitionKeepsUnique(d, p.writer, p.command, a.version, a.from, a.to, a.graphId, now);
    var d' := Transition(d, p.writer, p.command, a.version, a.from, a.to, a.graphId, now).0;
    forall c | c in d.commands
      ensures CommandOk(d', c) && CommandPast(d.commands[c], d', c)
    {
      CommandStaysOk(d, d', c);
    }
  }

  lemma CommandStaysOk(d: SendDb, d': SendDb, c: Guid)
    requires c in d.commands && CommandOk(d, c) && d'.commands == d.commands && RowsClimb(d, d')
    requires forall x | x in d'.states :: RowOk(d'.states[x])
    ensures CommandOk(d', c) && CommandPast(d.commands[c], d', c)
  {
    if d.commands[c].status == Sent { AcceptedIsFinal(d.states[c], d', c); }
  }

  /** A row read as accepted is still accepted, under the same id: nothing lies above it. */
  lemma AcceptedIsFinal(state: SendState, d: SendDb, c: Guid)
    requires StatePast(state, d, c) && RowOk(d.states[c]) && state.phase == Accepted
    ensures d.states[c] == state
  {}

  lemma CreateFacts(d: SendDb, w: Writer, c: Guid, now: Time)
    requires DbOk(d)
    ensures var (d', row) := CreateSendState(d, w, c, c, now);
      && DbOk(d') && Grows(d, d') && (row.Some? ==> c !in d.states && c in d'.states) && (row.None? ==> d' == d)
  {
    var d' := CreateSendState(d, w, c, c, now).0;
    forall x | x in d.commands
      ensures CommandOk(d', x) && CommandPast(d.commands[x], d', x)
    {
      CommandStaysOk(d, d', x);
    }
  }

  lemma TransitioningIsSound(d: SendDb, p: Proc, e: Event)
    requires DbOk(d) && Knows(d, p.command, p.pc) && e.Turn?
    requires p.pc.Recording? || p.pc.Requesting? || p.pc.Accepting? || p.pc.SettlingCreate? || p.pc.SettlingSubmit?
    ensures var (d', pc') := SenderMove(d, p, e); Sound(d, p.command, d', pc') && KeepsRights(p.pc, pc')
  {
    AttemptFacts(d, p, e.fate, e.now);
  }

  lemma AskingIsSound(d: SendDb, p: Proc, e: Event)
    requires DbOk(d) && Knows(d, p.command, p.pc) && e.Turn? && (p.pc.Drafting? || p.pc.Submitting?)
    ensures var (d', pc') := SenderMove(d, p, e); d' == d && Sound(d, p.command, d, pc') && KeepsRights(p.pc, pc')
    ensures p.pc.Submitting? ==> !MaySubmit(SenderMove(d, p, e).1)
  {
    Unchanged(d);
  }

  /** Marking an accepted command sent, under its own row's id, is sound and final. */
  lemma MarkedUnderItsId(d: SendDb, d': SendDb, c: Guid, id: nat)
    requires DbOk(d) && AcceptedAs(d, c, id) && c in d.commands
    requires !IdTaken(d, c, id) && (d.commands[c].providerId.Some? ==> d.commands[c].providerId == Some(id))
    requires c in d'.commands && d' == d.(commands := d.commands[c := d'.commands[c]])
    requires d'.commands[c].status == Sent && d'.commands[c].providerId == Some(id) && d'.commands[c].exchange
    requires d.commands[c].conversation.Some? ==> d'.commands[c].conversation.Some?
    ensures DbOk(d') && Grows(d, d')
  {
    Unchanged(d);
    forall x | x in d'.commands ensures CommandOk(d', x) { if x != c { assert CommandOk(d, x); } }
  }

  lemma MarkSentFacts(d: SendDb, c: Guid, id: nat, conv: nat)
    requires DbOk(d) && AcceptedAs(d, c, id)
    ensures DbOk(MarkSent(d, c, id, conv).0) && Grows(d, MarkSent(d, c, id, conv).0)
  {
    Unchanged(d);
    if c in d.commands { assert CommandOk(d, c); }
    if MarkSent(d, c, id, conv).1 { MarkedUnderItsId(d, MarkSent(d, c, id, conv).0, c, id); }
  }

  lemma MarkFallbackFacts(d: SendDb, c: Guid, id: nat)
    requires DbOk(d) && AcceptedAs(d, c, id)
    ensures DbOk(MarkSentFallback(d, c, id)) && Grows(d, MarkSentFallback(d, c, id))
    ensures DbOk(MarkCanary(d, c, id)) && Grows(d, MarkCanary(d, c, id))
  {
    Unchanged(d);
    if c in d.commands {
      assert CommandOk(d, c);
      if MarkSentFallback(d, c, id) != d { MarkedUnderItsId(d, MarkSentFallback(d, c, id), c, id); }
      if MarkCanary(d, c, id) != d { MarkedUnderItsId(d, MarkCanary(d, c, id), c, id); }
    }
  }

  lemma MarkReconciledFacts(d: SendDb, c: Guid, id: nat, conv: nat)
    requires DbOk(d) && AcceptedAs(d, c, id)
    ensures var (d', row, _) := MarkReconciled(d, c, id, conv);
      DbOk(d') && Grows(d, d') && AcceptedAs(d', c, id) && (row.Some? ==> ResolvedAs(d', c, id))
  {
    Unchanged(d);
    if c in d.commands { assert CommandOk(d, c); }
    if MarkReconciled(d, c, id, conv).1.Some? { MarkedUnderItsId(d, MarkReconciled(d, c, id, conv).0, c, id); }
  }

  lemma ManualFacts(d: SendDb, c: Guid)
    requires DbOk(d)
    ensures DbOk(MarkManual(d, c)) && Grows(d, MarkManual(d, c))
  {
    Unchanged(d);
    var d' := MarkManual(d, c);
    forall x | x in d.commands ensures CommandOk(d', x) && CommandPast(d.commands[x], d', x) { assert CommandOk(d, x); }
  }

  lemma MarkingIsSound(d: SendDb, p: Proc, e: Event)
    requires DbOk(d) && Knows(d, p.command, p.pc) && e.Turn? && IsMarking(p.pc)
    ensures var (d', pc') := SenderMove(d, p, e); Sound(d, p.command, d', pc') && KeepsRights(p.pc, pc')
  {
    Unchanged(d);
    if p.pc.MarkingSent? {
      MarkSentFacts(d, p.command, p.pc.draft, p.pc.conv);
    } else {
      MarkFallbackFacts(d, p.command, p.pc.draft);
    }
  }

  lemma LoadingIsSound(d: SendDb, p: Proc, io: Io)
    requires DbOk(d) && Knows(d, p.command, p.pc) && (p.pc.LoadingCommand? || p.pc.LoadingState?)
    ensures Knows(d, p.command, AdjudicationRead(d, p, io)) && KeepsRights(p.pc, AdjudicationRead(d, p, io))
  {
    var c := p.command;
    if p.pc.LoadingState? && c in d.states && AlreadyAccepted(p.pc.cmd, d.states[c]) { assert CommandOk(d, c); }
  }

  lemma VerdictIsSound(d: SendDb, p: Proc, io: Io)
    requires DbOk(d) && Knows(d, p.command, p.pc) && (p.pc.Searching? || p.pc.CheckingIdentity?)
    ensures Knows(d, p.command, AdjudicationRead(d, p, io)) && KeepsRights(p.pc, AdjudicationRead(d, p, io))
  {
    if p.pc.CheckingIdentity? && p.pc.state.phase == Accepted { AcceptedIsFinal(p.pc.state, d, p.command); }
  }

  lemma SettlingReadIsSound(d: SendDb, p: Proc)
    requires Knows(d, p.command, p.pc) && !IsSender(p.pc) && !IsAdjudicating(p.pc)
    ensures Knows(d, p.command, SettlingRead(d, p)) && KeepsRights(p.pc, SettlingRead(d, p))
  {}

  lemma ClaimIsSound(d: SendDb, p: Proc, e: Event)
    requires DbOk(d) && Knows(d, p.command, p.pc) && e.Turn? && (p.pc.Claiming? || p.pc.Reviewing?)
    ensures var (d', pc') := RepairMove(d, p, e); Sound(d, p.command, d', pc') && KeepsRights(p.pc, pc')
  {
    AttemptFacts(d, p, e.fate, e.now);
  }

  lemma RepairMarkIsSound(d: SendDb, p: Proc, e: Event)
    requires DbOk(d) && Knows(d, p.command, p.pc) && e.Turn? && p.pc.MarkingReconciled?
    ensures var (d', pc') := RepairMove(d, p, e); Sound(d, p.command, d', pc') && KeepsRights(p.pc, pc')
  {
    Unchanged(d);
    MarkReconciledFacts(d, p.command, p.pc.id, p.pc.conv);
  }

  lemma ManualIsSound(d: SendDb, p: Proc, e: Event)
    requires DbOk(d) && Knows(d, p.command, p.pc) && e.Turn? && p.pc.MarkingManual?
    ensures var (d', pc') := RepairMove(d, p, e); Sound(d, p.command, d', pc') && KeepsRights(p.pc, pc')
  {
    Unchanged(d);
    ManualFacts(d, p.command);
  }

  /** Every await after the insert: rows in order, the process's knowledge true, no new rights. */
  lemma MoveIsSound(d: SendDb, p: Proc, e: Event)
    requires DbOk(d) && Knows(d, p.command, p.pc) && e.Turn? && !p.pc.Creating?
    ensures var (d', pc') := Move(d, p, e); Sound(d, p.command, d', pc') && (Ended(p.pc) || KeepsRights(p.pc, pc'))
  {
    Unchanged(d);
    if Ended(p.pc) {
    } else if p.pc.Drafting? || p.pc.Submitting? {
      AskingIsSound(d, p, e);
    } else if IsMarking(p.pc) {
      MarkingIsSound(d, p, e);
    } else if IsSender(p.pc) {
      TransitioningIsSound(d, p, e);
    } else if p.pc.Claiming? || p.pc.Reviewing? {
      ClaimIsSound(d, p, e);
    } else if p.pc.MarkingReconciled? {
      RepairMarkIsSound(d, p, e);
    } else if p.pc.MarkingManual? {
      ManualIsSound(d, p, e);
    } else if p.pc.LoadingCommand? || p.pc.LoadingState? {
      LoadingIsSound(d, p, e.io);
    } else if IsAdjudicating(p.pc) {
      VerdictIsSound(d, p, e.io);
    } else {
      SettlingReadIsSound(d, p);
    }
  }

  // ---- The invariant over one step ---------------------------------------------

  /** Only the rows change. */
  lemma RowsChange(s: System, d': SendDb)
    requires Inv(s) && Grows(s.d, d') && DbOk(d')
    ensures Inv(s.(d := d'))
  {
    forall p | p in s.procs ensures ProcOk(s.(d := d'), s.procs[p]) {
      KnowledgeLasts(s.d, d', s.procs[p].command, s.procs[p].pc);
    }
  }

  /** Only the process moves, and it gains no right. */
  lemma ProcessMoves(s: System, pid: Pid, pc': Pc)
    requires Inv(s) && pid in s.procs && KeepsRights(s.procs[pid].pc, pc') && Knows(s.d, s.procs[pid].command, pc')
    ensures Inv(Put(s, pid, s.procs[pid].Go(pc')))
  {
    assert ProcOk(s, s.procs[pid]);
  }

  /** The insert succeeded: nobody else is engaged for this command, and nothing was asked for it yet. */
  lemma EngageKeepsInv(s: System, pid: Pid, v: nat)
    requires Inv(s) && pid in s.procs && s.procs[pid].command in s.d.states
    requires forall q | q in s.procs && Engaged(s.procs[q].pc) :: s.procs[q].command != s.procs[pid].command
    requires s.procs[pid].command !in s.created && NotSubmitted(s, s.procs[pid].command)
    ensures Inv(Put(s, pid, s.procs[pid].Go(Drafting(v))))
  {
    var s' := Put(s, pid, s.procs[pid].Go(Drafting(v)));
    forall q | q in s'.procs ensures ProcOk(s', s'.procs[q]) { if q != pid { assert ProcOk(s, s.procs[q]); } }
  }

  /** A command without a row: nobody is engaged for it and nothing was asked. */
  lemma NothingAskedYet(s: System, c: Guid)
    requires Inv(s) && c !in s.d.states
    ensures forall q | q in s.procs && Engaged(s.procs[q].pc) :: s.procs[q].command != c
    ensures c !in s.created && NotSubmitted(s, c)
  {
    forall q | q in s.procs && Engaged(s.procs[q].pc) ensures s.procs[q].command != c { assert ProcOk(s, s.procs[q]); }
    forall j | 0 <= j < |s.submitted|
      ensures s.submitted[j].0 != c
    {
      assert Reached(s.d, s.submitted[j].0, s.submitted[j].1, 2);
    }
  }

  lemma CreatingKeepsInv(s: System, pid: Pid, e: Event)
    requires Inv(s) && pid in s.procs && e.Turn? && e.pid == pid && s.procs[pid].pc.Creating?
    ensures Inv(Step(s, e)) && Grows(s.d, Step(s, e).d)
  {
    var p := s.procs[pid];
    var (made, row) := CreateSendState(s.d, p.writer, p.command, p.command, e.now);
    CreateFacts(s.d, p.writer, p.command, e.now);
    Unchanged(s.d);
    var s1 := s.(d := Kept(s.d, made, e.fate));
    RowsChange(s, s1.d);
    if e.fate.Acked? && row.Some? {
      NothingAskedYet(s, p.command);
      EngageKeepsInv(s1, pid, row.value.version);
    } else {
      ProcessMoves(s1, pid, Over);
    }
  }

  lemma OthersKeepRights(s: System, s': System, pid: Pid, q: Pid)
    requires Inv(s) && pid in s.procs && q in s.procs && q != pid && Engaged(s.procs[pid].pc)
    requires s' == Logged(s, s.procs[pid])
    ensures HasRight(s', s.procs[q])
  {
    assert ProcOk(s, s.procs[q]);
  }

  lemma LogKeepsCallsOk(s: System, pid: Pid)
    requires Inv(s) && pid in s.procs
    ensures CallsOk(Logged(s, s.procs[pid]))
  {
    var p := s.procs[pid];
    var s' := Logged(s, p);
    assert ProcOk(s, p);
    forall i, j | 0 <= i < j < |s'.created| ensures s'.created[i] != s'.created[j] {
      if j == |s.created| { assert s'.created[i] in s.created; }
    }
  }

  /** The provider calls: the caller is the only engaged process, so nobody else loses a right by it. */
  lemma AskingKeepsInv(s: System, pid: Pid, e: Event)
    requires Inv(s) && pid in s.procs && e.Turn? && e.pid == pid
    requires s.procs[pid].pc.Drafting? || s.procs[pid].pc.Submitting?
    ensures Inv(Step(s, e)) && Grows(s.d, Step(s, e).d)
  {
    var p := s.procs[pid];
    assert ProcOk(s, p);
    AskingIsSound(s.d, p, e);
    LogKeepsCallsOk(s, pid);
    var s' := Step(s, e);
    forall q | q in s'.procs ensures ProcOk(s', s'.procs[q]) {
      if q != pid {
        assert ProcOk(s, s.procs[q]);
        OthersKeepRights(s, Logged(s, p), pid, q);
      }
    }
  }

  lemma TurnKeepsInv(s: System, e: Event)
    requires Inv(s) && e.Turn? && e.pid in s.procs
    ensures Inv(Step(s, e)) && Grows(s.d, Step(s, e).d)
  {
    var p := s.procs[e.pid];
    assert ProcOk(s, p);
    if p.pc.Creating? {
      CreatingKeepsInv(s, e.pid, e);
    } else if p.pc.Drafting? || p.pc.Submitting? {
      AskingKeepsInv(s, e.pid, e);
    } else if Ended(p.pc) {
      Unchanged(s.d);
      assert Step(s, e) == s;
    } else {
      MoveIsSound(s.d, p, e);
      var (d', pc') := Move(s.d, p, e);
      RowsChange(s, d');
      ProcessMoves(s.(d := d'), e.pid, pc');
    }
  }

  lemma SpawnKeepsInv(s: System, pid: Pid, p: Proc)
    requires Inv(s) && pid !in s.procs && (p.pc.Creating? || p.pc.LoadingCommand?)
    ensures Inv(Put(s, pid, p))
  {
    var s' := Put(s, pid, p);
    forall q | q in s'.procs ensures ProcOk(s', s'.procs[q]) { if q in s.procs { assert ProcOk(s, s.procs[q]); } }
  }

  lemma OutsideKeepsInv(s: System, e: Event)
    requires Inv(s) && (e.Rows? || e.SetCommand?)
    ensures Inv(Step(s, e)) && Grows(s.d, Step(s, e).d)
  {
    var d' := Step(s, e).d;
    Unchanged(s.d);
    forall x | x in d'.commands ensures CommandOk(d', x) { if x in s.d.commands { assert CommandOk(s.d, x); } }
    RowsChange(s, d');
  }

  lemma StepKeepsInv(s: System, e: Event)
    requires Inv(s)
    ensures Inv(Step(s, e)) && Grows(s.d, Step(s, e).d)
  {
    Unchanged(s.d);
    match e
    case Send(pid, c, w, canary) => if pid !in s.procs { SpawnKeepsInv(s, pid, Proc(c, w, canary, Creating)); }
    case Reconcile(pid, c, w) => if pid !in s.procs { SpawnKeepsInv(s, pid, Proc(c, w, false, LoadingCommand)); }
    case Turn(pid, _, _, _) => if pid in s.procs { TurnKeepsInv(s, e); }
    case Crash(pid) => if pid in s.procs && !s.procs[pid].pc.Answered? { ProcessMoves(s, pid, Over); }
    case Rows(_) => OutsideKeepsInv(s, e);
    case SetCommand(_, _) => OutsideKeepsInv(s, e);
  }

  lemma {:induction false} RunKeepsInv(s: System, es: seq<Event>)
    requires Inv(s)
    ensures Inv(Run(s, es))
    decreases es
  {
    if es != [] {
      StepKeepsInv(s, es[0]);
      RunKeepsInv(Step(s, es[0]), es[1..]);
    }
  }

  // ---- Main results --------------------------------------------------------

  /**
   * In every run of senders and reconcilers, each command's draft is requested
   * at most once and submitted at most once, and whenever a submission was ever
   * requested the stored row is past drafted and names the submitted draft.
   */
  lemma SendsAtMostOnce(es: seq<Event>)
    ensures var s := Run(START, es);
      && Distinct(s.created)
      && SubmittedOnce(s.submitted)
      && forall i | 0 <= i < |s.submitted| ::
           var (c, draft) := s.submitted[i];
           c in s.d.states && !(s.d.states[c].phase.Prepared? || s.d.states[c].phase.Drafted?)
             && s.d.states[c].graphId == Some(draft)
  {
    RunKeepsInv(START, es);
    var s := Run(START, es);
    forall i | 0 <= i < |s.submitted| ensures Reached(s.d, s.submitted[i].0, s.submitted[i].1, 2) {}
  }

  /** One step moves a send-state row by at most one allowed transition, which the version counts. */
  predicate MovesByOne(a: SendState, b: SendState) {
    a == b || (Allowed(a.phase, b.phase) && b.version == a.version + 1 && Climbs(a, b))
  }

  lemma AttemptMovesRows(d: SendDb, p: Proc, fate: Fate, now: Time, c: Guid)
    requires c in d.states
    ensures var d' := Attempt(d, p, fate, now).0; c in d'.states && MovesByOne(d.states[c], d'.states[c])
  {}

  lemma StepMovesRows(s: System, e: Event, c: Guid)
    requires c in s.d.states
    ensures c in Step(s, e).d.states && MovesByOne(s.d.states[c], Step(s, e).d.states[c])
  {
    if e.Turn? && e.pid in s.procs { AttemptMovesRows(s.d, s.procs[e.pid], e.fate, e.now, c); }
  }

  /** Over any run a row's rank climbs at least as fast as its version, and a graph id once written stays. */
  lemma {:induction false} RowsClimbOverRuns(s: System, es: seq<Event>, c: Guid)
    requires Inv(s) && c in s.d.states
    ensures c in Run(s, es).d.states && Climbs(s.d.states[c], Run(s, es).d.states[c])
    decreases es
  {
    if es != [] {
      StepMovesRows(s, es[0], c);
      StepKeepsInv(s, es[0]);
      RowsClimbOverRuns(Step(s, es[0]), es[1..], c);
    }
  }

  /** The version never exceeds five, in any run. */
  lemma VersionIsBounded(es: seq<Event>, c: Guid)
    requires c in Run(START, es).d.states
    ensures var r := Run(START, es).d.states[c];
      r.version <= Rank(r.phase) <= 5 && (NeedsGraphId(r.phase) ==> r.graphId.Some?)
  {
    RunKeepsInv(START, es);
  }

  /** A command is marked sent only under its accepted row's graph id, and no two commands share one. */
  lemma SentUnderOwnId(es: seq<Event>)
    ensures var d := Run(START, es).d;
      && (forall c | c in d.commands && d.commands[c].status == Sent ::
            c in d.states && d.states[c].phase == Accepted && d.states[c].graphId.Some?
              && d.commands[c].providerId == d.states[c].graphId)
      && ProviderIdsUnique(d)
  {
    RunKeepsInv(START, es);
    var d := Run(START, es).d;
    forall c | c in d.commands ensures CommandOk(d, c) {}
  }

  lemma ResolvedStays(d: SendDb, d': SendDb, c: Guid, id: nat)
    requires DbOk(d) && DbOk(d') && Grows(d, d') && ResolvedAs(d, c, id)
    ensures ResolvedAs(d', c, id)
  {}

  /** A review answer is only given by a process that sees the command unsent. */
  lemma ReviewNeedsUnsent(d: SendDb, p: Proc, e: Event)
    requires e.Turn? && !Ended(p.pc) && Move(d, p, e).1.Answered? && Move(d, p, e).1.answer.InReview?
    ensures p.command in d.commands && d.commands[p.command].status == Dispatching
  {}

  /** An answer given while the command is resolved names its id. */
  lemma MoveAnswersTheSame(d: SendDb, p: Proc, e: Event, id: nat)
    requires e.Turn? && !Ended(p.pc) && ResolvedAs(d, p.command, id)
    requires var (d', pc') := Move(d, p, e); ResolvedAs(d', p.command, id) && pc'.Answered? && Knows(d', p.command, pc')
    ensures Move(d, p, e).1.answer == Resolved(id)
  {
    if Move(d, p, e).1.answer.InReview? { ReviewNeedsUnsent(d, p, e); }
  }

  /** Once a command is resolved, a step can only answer it the same way. */
  lemma StepAnswersTheSame(s: System, e: Event, pid: Pid, c: Guid, id: nat)
    requires ResolvedAs(s.d, c, id) && ResolvedAs(Step(s, e).d, c, id)
    requires pid in Step(s, e).procs && ProcOk(Step(s, e), Step(s, e).procs[pid])
    requires Step(s, e).procs[pid].command == c && Step(s, e).procs[pid].pc.Answered?
    ensures (pid in s.procs && s.procs[pid] == Step(s, e).procs[pid]) || Step(s, e).procs[pid].pc.answer == Resolved(id)
  {
    if e.Turn? && e.pid == pid && pid in s.procs && !Ended(s.procs[pid].pc) {
      MoveAnswersTheSame(s.d, s.procs[pid], e, id);
    }
  }

  /** Every answer about command c that s' gives and s did not yet give names id. */
  ghost predicate NewAnswersName(s: System, s': System, c: Guid, id: nat) {
    forall p | p in s'.procs && s'.procs[p].command == c && s'.procs[p].pc.Answered? ::
      (p in s.procs && s.procs[p] == s'.procs[p]) || s'.procs[p].pc.answer == Resolved(id)
  }

  lemma {:induction false} LaterAnswersAgree(s: System, es: seq<Event>, c: Guid, id: nat)
    requires Inv(s) && ResolvedAs(s.d, c, id)
    ensures ResolvedAs(Run(s, es).d, c, id) && NewAnswersName(s, Run(s, es), c, id)
    decreases es
  {
    if es != [] {
      var s1 := Step(s, es[0]);
      StepKeepsInv(s, es[0]);
      ResolvedStays(s.d, s1.d, c, id);
      forall p | p in s1.procs && s1.procs[p].command == c && s1.procs[p].pc.Answered?
        ensures (p in s.procs && s.procs[p] == s1.procs[p]) || s1.procs[p].pc.answer == Resolved(id)
      {
        assert ProcOk(s1, s1.procs[p]);
        StepAnswersTheSame(s, es[0], p, c, id);
      }
      LaterAnswersAgree(s1, es[1..], c, id);
    }
  }

  /**
   * After any adjudication has answered "accepted as id", the command is sent
   * under id for good, and every later answer about it, from any adjudication
   * already under way or yet to start, is the same one.
   */
  lemma ResolvedCommandsAnswerTheSame(es: seq<Event>, more: seq<Event>, pid: Pid)
    requires var s := Run(START, es); pid in s.procs && s.procs[pid].pc.Answered? && s.procs[pid].pc.answer.Resolved?
    ensures var s := Run(START, es);
      var (c, id) := (s.procs[pid].command, s.procs[pid].pc.answer.id);
      ResolvedAs(Run(s, more).d, c, id) && NewAnswersName(s, Run(s, more), c, id)
  {
    RunKeepsInv(START, es);
    AnswerStands(Run(START, es), more, pid);
  }

  lemma AnswerStands(s: System, more: seq<Event>, pid: Pid)
    requires Inv(s) && pid in s.procs && s.procs[pid].pc.Answered? && s.procs[pid].pc.answer.Resolved?
    ensures
      var (c, id) := (s.procs[pid].command, s.procs[pid].pc.answer.id);
      ResolvedAs(Run(s, more).d, c, id) && NewAnswersName(s, Run(s, more), c, id)
  {
    assert ProcOk(s, s.procs[pid]);
    LaterAnswersAgree(s, more, s.procs[pid].command, s.procs[pid].pc.answer.id);
  }
}
