/**
 * Fencing: arbitrary clients issue arbitrary statements with arbitrary clocks.
 * The only assumption is that an owner id is drawn fresh for each acquisition.
 */
module ExchangeLeaseFencing {
  import opened Wrappers
  import opened ExchangeConnectionStore

  datatype Call =
    | Ensure(tenant: Guid, mailbox: Guid, client: Guid)
    | Acquire(owner: Guid, generationIs: Option<nat>, versionIs: Option<nat>, now: Time)
    | Renew(g: Guard, now: Time)
    | Release(owner: Guid)
    | Commit(g: Guard, status: ConnectionStatus, credential: Option<Guid>, now: Time)
    | Connect(g: Guard, version: Guid, flow: Guid, now: Time)
    | Disconnect(g: Guard, now: Time)
    | MailWrite(tenant: Guid, mailbox: Guid, owner: Guid, generation: nat, now: Time)
    | NewFlow(flow: Guid, f: Flow, now: Time)
    | Callback(stateHash: nat, now: Time)
    | Finish(flow: Guid, generation: nat, now: Time)
    | Finalize(flow: Guid, binderHash: nat, operator: nat, now: Time)
    | Fail(flow: Guid)
    | Queue(version: Guid)
    | Complete(version: Guid)

  function After(db: Db, c: Call): Db {
    match c
    case Ensure(t, m, cl) => EnsureConnection(db, t, m, cl)
    case Acquire(o, g, v, now) => AcquireLease(db, o, g, v, now).0
    case Renew(g, now) => RenewLease(db, g, now).0
    case Release(o) => ReleaseLease(db, o).0
    case Commit(g, st, cred, now) => CommitConnection(db, g, st, cred, now).0
    case Connect(g, v, f, now) => CommitConnectionFlow(db, g, v, f, now).0
    case Disconnect(g, now) => DisconnectConnection(db, g, now).0
    case MailWrite(_, _, _, _, _) => db
    case NewFlow(id, f, now) => CreateFlow(db, id, f, now).0
    case Callback(h, now) => ClaimCallback(db, h, now)
    case Finish(id, g, now) => FinishCallback(db, id, g, now).0
    case Finalize(id, b, op, now) => ClaimFinalize(db, id, b, op, now).0
    case Fail(id) => FailFlow(db, id).0
    case Queue(v) => QueueCleanup(db, v)
    case Complete(v) => CompleteCleanup(db, v)
  }

  /** A statement that took effect under some owner's guard. */
  datatype Write = Write(owner: Guid, generation: nat)

  /** The guarded write a call achieves in this state, if any. */
  function Achieved(db: Db, c: Call): Option<Write> {
    match c
    case Renew(g, now) => if RenewLease(db, g, now).1.Some? then Some(Write(g.owner, g.generation)) else None
    case Commit(g, st, cred, now) =>
      if CommitConnection(db, g, st, cred, now).1.Some? then Some(Write(g.owner, g.generation)) else None
    case Connect(g, v, f, now) =>
      if CommitConnectionFlow(db, g, v, f, now).1.Some? then Some(Write(g.owner, g.generation)) else None
    case Disconnect(g, now) =>
      if DisconnectConnection(db, g, now).1.Some? then Some(Write(g.owner, g.generation)) else None
    case MailWrite(t, m, o, g, now) => if MailGuardHolds(db, t, m, o, g, now) then Some(Write(o, g)) else None
    case _ => None
  }

  /** The flow a call moves forward (claims, stages or connects) in this state, if any. */
  predicate MovesFlow(db: Db, c: Call, id: Guid) {
    match c
    case Connect(g, v, f, now) => f == id && CommitConnectionFlow(db, g, v, f, now).1.Some?
    case Callback(h, now) => id in db.flows && db.flows[id].stateHash == h && Movable(db, db.flows[id], Pending, now)
    case Finish(f, g, now) => f == id && FinishCallback(db, f, g, now).1
    case Finalize(f, b, op, now) => f == id && ClaimFinalize(db, f, b, op, now).1.Some?
    case _ => false
  }

  /** Rows plus what has happened so far. */
  datatype History = History(db: Db, acquired: set<Guid>, writes: seq<Write>, connects: seq<Guid>)

  const START := History(EMPTY, {}, [], [])

  /** A call happens; an acquisition under a reused owner id is not a possible call. */
  function Step(h: History, c: Call): History {
    if c.Acquire? && c.owner in h.acquired then h
    else
      var w := Achieved(h.db, c);
      History(After(h.db, c),
              if c.Acquire? then h.acquired + {c.owner} else h.acquired,
              if w.Some? then h.writes + [w.value] else h.writes,
              if c.Connect? && w.Some? then h.connects + [c.flow] else h.connects)
  }

  function Run(h: History, calls: seq<Call>): History
    decreases calls
  {
    if calls == [] then h else Run(Step(h, calls[0]), calls[1..])
  }

  predicate Retired(h: History, o: Guid) { o in h.acquired && h.db.LeaseOwner() != Some(o) }

  /** No owner's writes are interrupted by another owner's. */
  ghost predicate Blocks(ws: seq<Write>) {
    forall i, j, k | 0 <= i <= j <= k < |ws| && ws[i].owner == ws[k].owner :: ws[j].owner == ws[i].owner
  }

  ghost predicate OwnersOk(h: History) {
    && (h.db.LeaseOwner().Some? ==> h.db.LeaseOwner().value in h.acquired)
    && Blocks(h.writes)
    && (forall i | 0 <= i < |h.writes| :: h.writes[i].owner in h.acquired)
    && (forall i, j | 0 <= i <= j < |h.writes| && h.db.LeaseOwner() == Some(h.writes[i].owner) ::
          h.writes[j].owner == h.writes[i].owner)
  }

  predicate UpTo(db: Db, generation: nat) { db.connection.Some? && generation <= db.connection.value.generation }

  ghost predicate GenerationsOk(h: History) {
    && (forall i | 0 <= i < |h.writes| :: UpTo(h.db, h.writes[i].generation))
    && (forall i, j | 0 <= i <= j < |h.writes| :: h.writes[i].generation <= h.writes[j].generation)
    && (forall id | id in h.db.flows :: UpTo(h.db, h.db.flows[id].generation))
  }

  ghost predicate ConnectsOk(h: History) {
    && (forall i | 0 <= i < |h.connects| ::
          h.connects[i] in h.db.flows && h.db.flows[h.connects[i]].status == Completed)
    && Distinct(h.connects)
  }

  ghost predicate Inv(h: History) { OwnersOk(h) && GenerationsOk(h) && ConnectsOk(h) }

  /** An achieved write is by the lease holder and of the present generation. */
  lemma AchievedByHolder(db: Db, c: Call)
    requires Achieved(db, c).Some?
    ensures db.LeaseOwner() == Some(Achieved(db, c).value.owner)
    ensures db.Generation() == Some(Achieved(db, c).value.generation)
  {}

  /** The lease changes hands only by acquisition or release; generations never go back. */
  lemma HolderAndGeneration(db: Db, c: Call)
    ensures var db' := After(db, c);
      && (db'.LeaseOwner() == db.LeaseOwner() || db'.LeaseOwner().None?
          || (c.Acquire? && db'.LeaseOwner() == Some(c.owner)))
      && (db.connection.Some? ==>
            db'.connection.Some? && db.connection.value.generation <= db'.connection.value.generation)
  {}

  /** Flows keep their generation, and terminal flows keep their status. */
  lemma FlowsPersist(db: Db, c: Call, id: Guid)
    requires id in db.flows
    ensures var db' := After(db, c);
      && id in db'.flows && db'.flows[id].generation == db.flows[id].generation
      && (!db.flows[id].Active() ==> db'.flows[id].status == db.flows[id].status)
  {}

  lemma NewFlowsAreCurrent(db: Db, c: Call, id: Guid)
    requires id !in db.flows && id in After(db, c).flows
    ensures db.connection.Some? && After(db, c).flows[id].generation == db.connection.value.generation
  {}

  lemma StepKeepsOwners(h: History, c: Call)
    requires OwnersOk(h)
    ensures OwnersOk(Step(h, c))
  {
    HolderAndGeneration(h.db, c);
    if Achieved(h.db, c).Some? { AchievedByHolder(h.db, c); }
  }

  lemma StepKeepsGenerations(h: History, c: Call)
    requires GenerationsOk(h)
    ensures GenerationsOk(Step(h, c))
  {
    HolderAndGeneration(h.db, c);
    if Achieved(h.db, c).Some? { AchievedByHolder(h.db, c); }
    var db' := After(h.db, c);
    forall g | UpTo(h.db, g) ensures UpTo(db', g) {}
    forall id | id in db'.flows ensures UpTo(db', db'.flows[id].generation) {
      if id in h.db.flows { FlowsPersist(h.db, c, id); } else { NewFlowsAreCurrent(h.db, c, id); }
    }
  }

  lemma StepKeepsConnects(h: History, c: Call)
    requires ConnectsOk(h)
    ensures ConnectsOk(Step(h, c))
  {
    forall id | id in h.db.flows && h.db.flows[id].status == Completed
      ensures id in After(h.db, c).flows && After(h.db, c).flows[id].status == Completed
    {
      FlowsPersist(h.db, c, id);
    }
    if c.Connect? && Achieved(h.db, c).Some? { ConnectIsBothOrNeither(h.db, c.g, c.version, c.flow, c.now); }
  }

  lemma StepKeepsInv(h: History, c: Call)
    requires Inv(h)
    ensures Inv(Step(h, c))
  {
    StepKeepsOwners(h, c);
    StepKeepsGenerations(h, c);
    StepKeepsConnects(h, c);
  }

  lemma {:induction false} RunKeepsInv(h: History, calls: seq<Call>)
    requires Inv(h)
    ensures Inv(Run(h, calls))
    decreases calls
  {
    if calls != [] {
      StepKeepsInv(h, calls[0]);
      RunKeepsInv(Step(h, calls[0]), calls[1..]);
    }
  }

  // ---- Main results --------------------------------------------------------

  /** Over every run, each owner's successful guarded writes form one contiguous block. */
  lemma WritesFormBlocks(calls: seq<Call>)
    ensures Blocks(Run(START, calls).writes)
  {
    RunKeepsInv(START, calls);
  }

  /** Once another owner holds the lease (or nobody does), no write of the displaced owner succeeds again. */
  lemma {:induction false} DisplacedOwnerIsFenced(h: History, calls: seq<Call>, o: Guid)
    requires Inv(h) && Retired(h, o)
    ensures var h' := Run(h, calls);
      && Retired(h', o)
      && |h.writes| <= |h'.writes| && h'.writes[..|h.writes|] == h.writes
      && forall i | |h.writes| <= i < |h'.writes| :: h'.writes[i].owner != o
    decreases calls
  {
    if calls != [] {
      var h1 := Step(h, calls[0]);
      HolderAndGeneration(h.db, calls[0]);
      if Achieved(h.db, calls[0]).Some? { AchievedByHolder(h.db, calls[0]); }
      StepKeepsInv(h, calls[0]);
      DisplacedOwnerIsFenced(h1, calls[1..], o);
      assert h1.writes[..|h.writes|] == h.writes;
    }
  }

  /**
   * A successful disconnect closes its generation: afterwards no guarded write
   * of that generation or an older one succeeds, and no flow created in one
   * ever moves forward again, whoever asks and whatever the clock says.
   */
  lemma DisconnectClosesGeneration(h: History, g: Guard, now: Time, calls: seq<Call>, c: Call, id: Guid)
    requires Inv(h) && DisconnectConnection(h.db, g, now).1.Some?
    ensures var h' := Run(Step(h, Disconnect(g, now)), calls);
      && (Achieved(h'.db, c).Some? ==> Achieved(h'.db, c).value.generation > g.generation)
      && (id in h'.db.flows && h'.db.flows[id].generation <= g.generation ==> !MovesFlow(h'.db, c, id))
  {
    var h1 := Step(h, Disconnect(g, now));
    GenerationNeverFalls(h1, calls);
    var h' := Run(h1, calls);
    if Achieved(h'.db, c).Some? { AchievedByHolder(h'.db, c); }
    if c.Connect? && MovesFlow(h'.db, c, id) { ConnectIsBothOrNeither(h'.db, c.g, c.version, c.flow, c.now); }
  }

  lemma {:induction false} GenerationNeverFalls(h: History, calls: seq<Call>)
    requires h.db.connection.Some?
    ensures var h' := Run(h, calls);
      h'.db.connection.Some? && h.db.connection.value.generation <= h'.db.connection.value.generation
    decreases calls
  {
    if calls != [] {
      HolderAndGeneration(h.db, calls[0]);
      GenerationNeverFalls(Step(h, calls[0]), calls[1..]);
    }
  }

  /** Over every run, no OAuth flow connects a mailbox twice. */
  lemma FlowConnectsAtMostOnce(calls: seq<Call>)
    ensures Distinct(Run(START, calls).connects)
  {
    RunKeepsInv(START, calls);
  }

  /** The stations of an OAuth flow, in order. */
  function Station(s: FlowStatus): nat {
    match s
    case Pending => 0
    case Staging => 1
    case Ready => 2
    case Consuming => 3
    case Completed => 4
    case FlowFailed => 5
  }

  /** A flow takes the next station or fails; a completed or failed one stays, and nothing else of it changes. */
  predicate FlowMoves(a: Flow, b: Flow) {
    && b.(status := a.status) == a
    && (b.status == a.status || (a.Active() && (b.status == FlowFailed || Station(b.status) == Station(a.status) + 1)))
  }

  lemma CallMovesFlows(db: Db, c: Call, id: Guid)
    requires id in db.flows
    ensures id in After(db, c).flows && FlowMoves(db.flows[id], After(db, c).flows[id])
  {}

  /** What is left of that over many calls. */
  predicate FlowClimbs(a: Flow, b: Flow) {
    b.(status := a.status) == a && Station(a.status) <= Station(b.status) && (!a.Active() ==> b.status == a.status)
  }

  /** Over every run a flow only goes forward, one station at a time, and its end is final. */
  lemma {:induction false} FlowsOnlyGoForward(h: History, calls: seq<Call>, id: Guid)
    requires id in h.db.flows
    ensures id in Run(h, calls).db.flows && FlowClimbs(h.db.flows[id], Run(h, calls).db.flows[id])
    decreases calls
  {
    if calls != [] {
      CallMovesFlows(h.db, calls[0], id);
      FlowsOnlyGoForward(Step(h, calls[0]), calls[1..], id);
    }
  }
}
