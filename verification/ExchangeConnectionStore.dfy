/**
 * The single connection row, the OAuth flows and the cleanup queue. Every SQL
 * statement (or batch) is one function from rows to rows and a result.
 */
module ExchangeConnectionStore {
  import opened Wrappers

  const LEASE_TTL: Time := 60 * 1000
  const FLOW_TTL: Time := 300 * 1000

  datatype ConnectionStatus = Connected | Disconnected | ReauthRequired

  datatype Lease = Lease(owner: Guid, expiresAt: Time)

  datatype Connection = Connection(
    tenant: Guid, mailbox: Guid, client: Guid,
    generation: nat, version: nat, status: ConnectionStatus,
    credential: Option<Guid>, lease: Option<Lease>)
  {
    predicate HeldBy(owner: Guid, now: Time) {
      lease.Some? && lease.value.owner == owner && lease.value.expiresAt > now
    }

    predicate At(g: nat, v: nat) { generation == g && version == v }
  }

  datatype FlowStatus = Pending | Staging | Ready | Consuming | Completed | FlowFailed

  datatype Flow = Flow(
    generation: nat, stateHash: nat, binderHash: nat, operator: nat,
    status: FlowStatus, expiresAt: Time)
  {
    predicate Active() { status.Pending? || status.Staging? || status.Ready? || status.Consuming? }

    predicate Consumable(g: nat, now: Time) {
      generation == g && status == Consuming && expiresAt > now
    }
  }

  datatype Db = Db(connection: Option<Connection>, flows: map<Guid, Flow>, cleanup: set<Guid>)
  {
    function Credential(): Option<Guid> {
      if connection.Some? then connection.value.credential else None
    }

    function Generation(): Option<nat> {
      if connection.Some? then Some(connection.value.generation) else None
    }

    function LeaseOwner(): Option<Guid> {
      if connection.Some? && connection.value.lease.Some?
      then Some(connection.value.lease.value.owner) else None
    }
  }

  const EMPTY := Db(None, map[], {})

  /** Who a guarded statement claims to be. */
  datatype Guard = Guard(owner: Guid, generation: nat, version: nat)
  {
    predicate Valid() { ValidCounter(generation) && ValidCounter(version) }
  }

  /** The row lets this guard write at this time. */
  predicate Admits(db: Db, g: Guard, now: Time) {
    && g.Valid()
    && db.connection.Some?
    && db.connection.value.HeldBy(g.owner, now)
    && db.connection.value.At(g.generation, g.version)
  }

  /**
   * Every update of the row goes through here: the trigger queues the old
   * credential in the same transaction whenever the pointer changes.
   */
  function Store(db: Db, c: Connection): Db {
    db.(connection := Some(c),
        cleanup := if db.Credential().Some? && c.credential != db.Credential()
                   then db.cleanup + {db.Credential().value} else db.cleanup)
  }

  function EnsureConnection(db: Db, tenant: Guid, mailbox: Guid, client: Guid): Db {
    if db.connection.Some? then db
    else db.(connection := Some(Connection(tenant, mailbox, client, 0, 0, Disconnected, None, None)))
  }

  function AcquireLease(
    db: Db, owner: Guid, generation: Option<nat>, version: Option<nat>, now: Time): (Db, Option<Connection>) {
    if && (generation.None? || ValidCounter(generation.value))
       && (version.None? || ValidCounter(version.value))
       && db.connection.Some?
       && (db.connection.value.lease.None? || db.connection.value.lease.value.expiresAt <= now)
       && (generation.None? || db.connection.value.generation == generation.value)
       && (version.None? || db.connection.value.version == version.value)
    then
      var c := db.connection.value.(lease := Some(Lease(owner, now + LEASE_TTL)));
      (Store(db, c), Some(c))
    else (db, None)
  }

  function RenewLease(db: Db, g: Guard, now: Time): (Db, Option<Connection>) {
    if Admits(db, g, now) && db.connection.value.status == Connected then
      var c := db.connection.value.(lease := Some(Lease(g.owner, now + LEASE_TTL)));
      (Store(db, c), Some(c))
    else (db, None)
  }

  function ReleaseLease(db: Db, owner: Guid): (Db, bool) {
    if db.LeaseOwner() == Some(owner)
    then (Store(db, db.connection.value.(lease := None)), true)
    else (db, false)
  }

  function CommitConnection(
    db: Db, g: Guard, status: ConnectionStatus, credential: Option<Guid>, now: Time): (Db, Option<Connection>) {
    if status == Disconnected || (status == Connected && credential.None?) then (db, None)
    else if Admits(db, g, now) then
      var c := db.connection.value.(status := status, credential := credential, version := g.version + 1);
      (Store(db, c), Some(c))
    else (db, None)
  }

  /** First statement of the connect batch: the pointer. */
  function ConnectPointer(db: Db, g: Guard, credential: Guid, flow: Guid, now: Time): (Db, Option<Connection>) {
    if Admits(db, g, now) && flow in db.flows && db.flows[flow].Consumable(g.generation, now) then
      var c := db.connection.value.(status := Connected, credential := Some(credential), version := g.version + 1);
      (Store(db, c), Some(c))
    else (db, None)
  }

  /** Second statement of the connect batch: the flow, guarded by changes() and the row just written. */
  function ConnectFlow(db: Db, changes: nat, g: Guard, credential: Guid, flow: Guid, now: Time): (Db, bool) {
    if && flow in db.flows && db.flows[flow].Consumable(g.generation, now)
       && changes == 1
       && db.connection.Some?
       && db.connection.value.status == Connected
       && db.connection.value.credential == Some(credential)
       && db.connection.value.At(g.generation, g.version + 1)
       && db.connection.value.HeldBy(g.owner, now)
    then (db.(flows := db.flows[flow := db.flows[flow].(status := Completed)]), true)
    else (db, false)
  }

  /** The batch; its caller sees the row only when both statements returned one. */
  function CommitConnectionFlow(db: Db, g: Guard, credential: Guid, flow: Guid, now: Time): (Db, Option<Connection>) {
    if !g.Valid() then (db, None) else
    var (db1, row) := ConnectPointer(db, g, credential, flow, now);
    var (db2, done) := ConnectFlow(db1, if row.Some? then 1 else 0, g, credential, flow, now);
    (db2, if done then row else None)
  }

  function FailFlows(flows: map<Guid, Flow>, generation: nat): map<Guid, Flow> {
    map id | id in flows ::
      if flows[id].Active() && flows[id].generation <= generation
      then flows[id].(status := FlowFailed) else flows[id]
  }

  /** First statement of the disconnect batch: drop the pointer and open a new generation. */
  function DisconnectRow(db: Db, g: Guard, now: Time): (Db, Option<Connection>) {
    if Admits(db, g, now) then
      var c := db.connection.value.(status := Disconnected, credential := None,
                                    generation := g.generation + 1, version := g.version + 1);
      (Store(db, c), Some(c))
    else (db, None)
  }

  /** Second statement: fail the flows of every generation up to the one just closed. */
  function FailOlderFlows(db: Db, g: Guard, now: Time): Db {
    if && db.connection.Some?
       && db.connection.value.status == Disconnected
       && db.connection.value.At(g.generation + 1, g.version + 1)
       && db.connection.value.HeldBy(g.owner, now)
    then db.(flows := FailFlows(db.flows, g.generation)) else db
  }

  function DisconnectConnection(db: Db, g: Guard, now: Time): (Db, Option<Connection>) {
    if !g.Valid() then (db, None) else
    var (db1, row) := DisconnectRow(db, g, now);
    (FailOlderFlows(db1, g, now), row)
  }

  function ExpireFlows(flows: map<Guid, Flow>, now: Time): map<Guid, Flow> {
    map id | id in flows ::
      if flows[id].Active() && flows[id].expiresAt <= now
      then flows[id].(status := FlowFailed) else flows[id]
  }

  /** The three unique indexes a new flow can collide with. */
  predicate Collides(flows: map<Guid, Flow>, id: Guid, f: Flow) {
    || id in flows
    || (exists other | other in flows :: flows[other].stateHash == f.stateHash)
    || (exists other | other in flows :: flows[other].Active() && flows[other].operator == f.operator)
  }

  function CreateFlow(db: Db, id: Guid, f: Flow, now: Time): (Db, bool) {
    if !ValidCounter(f.generation) || f.status != Pending || !(now < f.expiresAt <= now + FLOW_TTL) then (db, false)
    else
      var flows := ExpireFlows(db.flows, now);
      if db.Generation() == Some(f.generation) && !Collides(flows, id, f)
      then (db.(flows := flows[id := f]), true)
      else (db.(flows := flows), false)
  }

  /** The flow may move: unexpired, in the given state, and of the connection's present generation. */
  predicate Movable(db: Db, f: Flow, from: FlowStatus, now: Time) {
    f.status == from && f.expiresAt > now && db.Generation() == Some(f.generation)
  }

  function ClaimCallback(db: Db, stateHash: nat, now: Time): Db {
    db.(flows := map id | id in db.flows ::
      if db.flows[id].stateHash == stateHash && Movable(db, db.flows[id], Pending, now)
      then db.flows[id].(status := Staging) else db.flows[id])
  }

  function FinishCallback(db: Db, id: Guid, generation: nat, now: Time): (Db, bool) {
    if && ValidCounter(generation) && id in db.flows
       && db.flows[id].generation == generation && Movable(db, db.flows[id], Staging, now)
    then (db.(flows := db.flows[id := db.flows[id].(status := Ready)]), true)
    else (db, false)
  }

  function ClaimFinalize(db: Db, id: Guid, binderHash: nat, operator: nat, now: Time): (Db, Option<Flow>) {
    if && id in db.flows && db.flows[id].binderHash == binderHash && db.flows[id].operator == operator
       && Movable(db, db.flows[id], Ready, now)
    then
      var f := db.flows[id].(status := Consuming);
      (db.(flows := db.flows[id := f]), Some(f))
    else (db, None)
  }

  function FailFlow(db: Db, id: Guid): (Db, bool) {
    if id in db.flows && db.flows[id].Active()
    then (db.(flows := db.flows[id := db.flows[id].(status := FlowFailed)]), true)
    else (db, false)
  }

  function QueueCleanup(db: Db, credential: Guid): Db {
    if db.Credential() == Some(credential) then db
    else db.(cleanup := db.cleanup + {credential})
  }

  /** A page of cleanup jobs: at most twenty, none of them the active pointer. */
  predicate IsListing(db: Db, jobs: seq<Guid>) {
    && |jobs| <= 20
    && forall j | j in jobs :: j in db.cleanup && db.Credential() != Some(j)
  }

  function CompleteCleanup(db: Db, credential: Guid): Db {
    if db.Credential() == Some(credential) then db
    else db.(cleanup := db.cleanup - {credential})
  }

  /** The EXISTS clause every mail-store statement carries. */
  predicate MailGuardHolds(db: Db, tenant: Guid, mailbox: Guid, owner: Guid, generation: nat, now: Time) {
    && db.connection.Some?
    && db.connection.value.tenant == tenant && db.connection.value.mailbox == mailbox
    && db.connection.value.HeldBy(owner, now)
    && db.connection.value.generation == generation
    && db.connection.value.status == Connected
  }

  /** The credentials the rows still know about: the active one and those waiting for cleanup. */
  function Accounted(db: Db): set<Guid> {
    db.cleanup + if db.Credential().Some? then {db.Credential().value} else {}
  }

  /** The flow may still become the mailbox's connection. */
  predicate Usable(flows: map<Guid, Flow>, id: Guid) { id in flows && flows[id].Active() }

  /** State hashes are unique, and an operator has at most one active flow. */
  ghost predicate FlowsUnique(flows: map<Guid, Flow>) {
    && (forall a, b | a in flows && b in flows && a != b :: flows[a].stateHash != flows[b].stateHash)
    && (forall a, b | Usable(flows, a) && Usable(flows, b) && a != b :: flows[a].operator != flows[b].operator)
  }

  // ---- Facts about single statements -------------------------------------

  /**
   * The connect batch is both-or-neither in every state: the pointer moves
   * exactly when the flow is completed, and exactly then the caller is told.
   */
  lemma ConnectIsBothOrNeither(db: Db, g: Guard, credential: Guid, flow: Guid, now: Time)
    requires g.Valid()
    ensures
      var moved := ConnectPointer(db, g, credential, flow, now).1.Some?;
      var (db', row) := CommitConnectionFlow(db, g, credential, flow, now);
      && (moved <==> row.Some?)
      && (moved <==>
            flow in db.flows && db.flows[flow].status == Consuming
              && db'.flows == db.flows[flow := db.flows[flow].(status := Completed)])
      && (!moved ==> db' == db)
      && (moved ==> db'.Credential() == Some(credential) && db'.connection == row)
  {}

  lemma ExpiryKeepsUnique(flows: map<Guid, Flow>, now: Time)
    requires FlowsUnique(flows)
    ensures FlowsUnique(ExpireFlows(flows, now))
  {
    var expired := ExpireFlows(flows, now);
    forall a, b | Usable(expired, a) && Usable(expired, b) && a != b
      ensures expired[a].operator != expired[b].operator
    {
      assert Usable(flows, a) && Usable(flows, b);
    }
  }

  /** The indexes keep what they are there for, whatever a new flow looks like. */
  lemma OpeningKeepsUnique(db: Db, id: Guid, f: Flow, now: Time)
    requires FlowsUnique(db.flows)
    ensures FlowsUnique(CreateFlow(db, id, f, now).0.flows)
  {
    ExpiryKeepsUnique(db.flows, now);
    var expired := ExpireFlows(db.flows, now);
    if !Collides(expired, id, f) {
      forall a | Usable(expired, a) ensures expired[a].operator != f.operator {}
    }
  }

  // ---- The store -----------------------------------------------------------

  /** The rows as fields; each method is one statement or one batch. */
  class Rows {
    var connection: Option<Connection>
    var flows: map<Guid, Flow>
    var cleanup: set<Guid>

    function Value(): Db
      reads this
    {
      Db(connection, flows, cleanup)
    }

    constructor ()
      ensures Value() == EMPTY
    {
      connection, flows, cleanup := None, map[], {};
    }

    /** An update of the row and the trigger that goes with it. */
    method Write(c: Connection)
      modifies `connection, `cleanup
      ensures Value() == Store(old(Value()), c)
      ensures Value().Credential() == c.credential
      ensures Accounted(Value()) == Accounted(old(Value())) + Accounted(Db(Some(c), map[], {}))
      ensures old(Value()).Credential() == c.credential ==> cleanup == old(cleanup)
    {
      if connection.Some? && connection.value.credential.Some? && c.credential != connection.value.credential {
        cleanup := cleanup + {connection.value.credential.value};
      }
      connection := Some(c);
    }

    method Ensure(tenant: Guid, mailbox: Guid, client: Guid)
      modifies `connection
      ensures Value() == EnsureConnection(old(Value()), tenant, mailbox, client)
      ensures connection.Some? && (old(connection).Some? ==> connection == old(connection))
      ensures forall g, t :: Admits(Value(), g, t) <==> Admits(old(Value()), g, t)
    {
      if connection.None? { connection := Some(Connection(tenant, mailbox, client, 0, 0, Disconnected, None, None)); }
    }

    method Acquire(
      owner: Guid, generation: Option<nat>, version: Option<nat>, now: Time)
      returns (row: Option<Connection>)
      modifies `connection, `cleanup
      ensures (Value(), row) == AcquireLease(old(Value()), owner, generation, version, now)
      ensures row.None? ==> Value() == old(Value())
      ensures row.Some? ==> (forall o :: !old(connection).value.HeldBy(o, now)) && Value().LeaseOwner() == Some(owner)
      ensures row.Some? ==> forall g, t :: Admits(Value(), g, t) ==> g.owner == owner && t < now + LEASE_TTL
      ensures row.Some? ==>
        Value().Generation() == old(Value()).Generation() && Accounted(Value()) == Accounted(old(Value()))
    {
      if (generation.Some? && !ValidCounter(generation.value)) || (version.Some? && !ValidCounter(version.value))
         || connection.None? {
        return None;
      }
      var c := connection.value;
      if (c.lease.Some? && c.lease.value.expiresAt > now) || (generation.Some? && c.generation != generation.value)
         || (version.Some? && c.version != version.value) {
        return None;
      }
      c := c.(lease := Some(Lease(owner, now + LEASE_TTL)));
      Write(c);
      row := Some(c);
    }

    method Renew(g: Guard, now: Time) returns (row: Option<Connection>)
      modifies `connection, `cleanup
      ensures (Value(), row) == RenewLease(old(Value()), g, now)
      ensures row.Some? <==> Admits(old(Value()), g, now) && old(connection).value.status == Connected
      ensures row.None? ==> Value() == old(Value())
      ensures row.Some? ==> forall t :: Admits(Value(), g, t) <==> t < now + LEASE_TTL
      ensures row.Some? ==> forall h: Guard, t :: h.owner != g.owner ==> !Admits(Value(), h, t)
      ensures Accounted(Value()) == Accounted(old(Value()))
    {
      if !Admits(Value(), g, now) || connection.value.status != Connected { return None; }
      var c := connection.value.(lease := Some(Lease(g.owner, now + LEASE_TTL)));
      Write(c);
      row := Some(c);
    }

    method Release(owner: Guid) returns (done: bool)
      modifies `connection, `cleanup
      ensures (Value(), done) == ReleaseLease(old(Value()), owner)
      ensures old(Value()).LeaseOwner() != Some(owner) ==> !done && Value() == old(Value())
      ensures old(Value()).LeaseOwner() == Some(owner) ==> done && forall g, t :: !Admits(Value(), g, t)
      ensures Value().Generation() == old(Value()).Generation() && Accounted(Value()) == Accounted(old(Value()))
    {
      if connection.None? || connection.value.lease.None? || connection.value.lease.value.owner != owner {
        return false;
      }
      Write(connection.value.(lease := None));
      done := true;
    }

    method Commit(
      g: Guard, status: ConnectionStatus, credential: Option<Guid>, now: Time)
      returns (row: Option<Connection>)
      modifies `connection, `cleanup
      ensures (Value(), row) == CommitConnection(old(Value()), g, status, credential, now)
      ensures row.None? ==> Value() == old(Value())
      ensures row.Some? ==> Admits(old(Value()), g, now) && Value().Credential() == credential
      ensures row.Some? ==> forall t :: !Admits(Value(), g, t)
      ensures row.Some? && ValidCounter(g.version + 1) ==> Admits(Value(), g.(version := g.version + 1), now)
      ensures Accounted(old(Value())) <= Accounted(Value())
    {
      if status == Disconnected || (status == Connected && credential.None?) || !Admits(Value(), g, now) {
        return None;
      }
      var c := connection.value.(status := status, credential := credential, version := g.version + 1);
      Write(c);
      row := Some(c);
    }

    /** The connect batch. It moves the pointer and completes the flow, or changes nothing. */
    method Connect(g: Guard, credential: Guid, flow: Guid, now: Time) returns (row: Option<Connection>)
      modifies this
      ensures (Value(), row) == CommitConnectionFlow(old(Value()), g, credential, flow, now)
      ensures row.None? ==> Value() == old(Value())
      ensures row.Some? ==> flow in old(flows) && old(flows)[flow].status == Consuming
      ensures row.Some? ==> flows == old(flows)[flow := old(flows)[flow].(status := Completed)] && connection == row
    {
      if !g.Valid() { return None; }
      ConnectIsBothOrNeither(Value(), g, credential, flow, now);
      var changes := 0;
      if Admits(Value(), g, now) && flow in flows && flows[flow].Consumable(g.generation, now) {
        Write(connection.value.(status := Connected, credential := Some(credential), version := g.version + 1));
        changes := 1;
      }
      if && flow in flows && flows[flow].Consumable(g.generation, now) && changes == 1
         && connection.Some? && connection.value.status == Connected && connection.value.credential == Some(credential)
         && connection.value.At(g.generation, g.version + 1) && connection.value.HeldBy(g.owner, now) {
        flows := flows[flow := flows[flow].(status := Completed)];
        return connection;
      }
      row := None;
    }

    method Disconnect(g: Guard, now: Time) returns (row: Option<Connection>)
      modifies this
      ensures (Value(), row) == DisconnectConnection(old(Value()), g, now)
      ensures row.None? ==> connection == old(connection) && cleanup == old(cleanup)
      ensures flows.Keys == old(flows).Keys
      ensures forall id | id in flows && flows[id] != old(flows)[id] ::
        Usable(old(flows), id) && old(flows)[id].generation <= g.generation && flows[id].status == FlowFailed
      ensures row.Some? ==> Value().Credential().None? && Accounted(Value()) == Accounted(old(Value()))
      ensures row.Some? ==> forall h: Guard, t :: h.generation <= g.generation ==> !Admits(Value(), h, t)
      ensures row.Some? ==> forall id :: Usable(flows, id) ==> flows[id].generation > g.generation
    {
      if !g.Valid() { return None; }
      row := None;
      if Admits(Value(), g, now) {
        var c := connection.value.(status := Disconnected, credential := None, generation := g.generation + 1,
                                   version := g.version + 1);
        Write(c);
        row := Some(c);
      }
      if && connection.Some? && connection.value.status == Disconnected
         && connection.value.At(g.generation + 1, g.version + 1) && connection.value.HeldBy(g.owner, now) {
        flows := FailFlows(flows, g.generation);
      }
    }

    /** Two statements: expired flows fail, then the new one is inserted unless a unique index refuses it. */
    method OpenFlow(id: Guid, f: Flow, now: Time) returns (created: bool)
      modifies `flows
      ensures (Value(), created) == CreateFlow(old(Value()), id, f, now)
      ensures old(FlowsUnique(flows)) ==> FlowsUnique(flows)
      ensures created ==>
        id !in old(flows) && flows.Keys == old(flows).Keys + {id} && flows[id] == f && f.status == Pending
      ensures created ==> old(Value()).Generation() == Some(f.generation) && now < f.expiresAt <= now + FLOW_TTL
      ensures !created ==> flows.Keys == old(flows).Keys
      ensures forall other ::
        Usable(flows, other) && other != id ==> Usable(old(flows), other) && flows[other] == old(flows)[other]
    {
      if FlowsUnique(flows) { OpeningKeepsUnique(Value(), id, f, now); }
      if !ValidCounter(f.generation) || f.status != Pending || !(now < f.expiresAt <= now + FLOW_TTL) { return false; }
      flows := ExpireFlows(flows, now);
      if Value().Generation() != Some(f.generation) || Collides(flows, id, f) { return false; }
      flows := flows[id := f];
      created := true;
    }

    method ClaimCallbackFlow(stateHash: nat, now: Time)
      modifies `flows
      ensures Value() == ClaimCallback(old(Value()), stateHash, now)
      ensures flows.Keys == old(flows).Keys
      ensures forall id | id in flows && flows[id] != old(flows)[id] ::
        && old(flows)[id].stateHash == stateHash && Movable(old(Value()), old(flows)[id], Pending, now)
        && flows[id] == old(flows)[id].(status := Staging)
      ensures forall id, t | id in flows && flows[id].stateHash == stateHash && now <= t ::
        !Movable(Value(), flows[id], Pending, t)
    {
      var db := Value();
      flows := map id | id in flows ::
        if flows[id].stateHash == stateHash && Movable(db, flows[id], Pending, now) then flows[id].(status := Staging)
        else flows[id];
    }

    method FinishCallbackFlow(id: Guid, generation: nat, now: Time) returns (done: bool)
      modifies `flows
      ensures (Value(), done) == FinishCallback(old(Value()), id, generation, now)
      ensures !done ==> Value() == old(Value())
      ensures done ==> id in old(flows) && Movable(old(Value()), old(flows)[id], Staging, now)
      ensures done ==> Movable(Value(), flows[id], Ready, now) && flows == old(flows)[id := flows[id]]
      ensures done ==> forall g, t :: !FinishCallback(Value(), id, g, t).1
    {
      if !ValidCounter(generation) || id !in flows || flows[id].generation != generation
         || !Movable(Value(), flows[id], Staging, now) {
        return false;
      }
      flows := flows[id := flows[id].(status := Ready)];
      done := true;
    }

    method ClaimFinalizeFlow(id: Guid, binderHash: nat, operator: nat, now: Time) returns (flow: Option<Flow>)
      modifies `flows
      ensures (Value(), flow) == ClaimFinalize(old(Value()), id, binderHash, operator, now)
      ensures flow.None? ==> Value() == old(Value())
      ensures flow.Some? ==>
        id in old(flows) && old(flows)[id].binderHash == binderHash && old(flows)[id].operator == operator
      ensures flow.Some? ==>
        flow.value.Consumable(old(flows)[id].generation, now) && flows == old(flows)[id := flow.value]
      ensures flow.Some? ==> forall b, o, t :: ClaimFinalize(Value(), id, b, o, t).1.None?
    {
      if id !in flows || flows[id].binderHash != binderHash || flows[id].operator != operator
         || !Movable(Value(), flows[id], Ready, now) {
        return None;
      }
      flows := flows[id := flows[id].(status := Consuming)];
      flow := Some(flows[id]);
    }

    method Fail(id: Guid) returns (done: bool)
      modifies `flows
      ensures (Value(), done) == FailFlow(old(Value()), id)
      ensures done <==> Usable(old(flows), id)
      ensures !Usable(flows, id) && flows.Keys == old(flows).Keys
      ensures forall other | other in flows && (other != id || !Usable(old(flows), other)) ::
        flows[other] == old(flows)[other]
    {
      if id !in flows || !flows[id].Active() { return false; }
      flows := flows[id := flows[id].(status := FlowFailed)];
      done := true;
    }

    method Queue(credential: Guid)
      modifies `cleanup
      ensures Value() == QueueCleanup(old(Value()), credential)
      ensures Accounted(Value()) == Accounted(old(Value())) + {credential}
      ensures forall v | v in cleanup && v !in old(cleanup) :: v == credential && Value().Credential() != Some(v)
    {
      if Value().Credential() != Some(credential) { cleanup := cleanup + {credential}; }
    }

    method Complete(credential: Guid)
      modifies `cleanup
      ensures Value() == CompleteCleanup(old(Value()), credential)
      ensures old(Value()).Credential() == Some(credential) ==> Value() == old(Value())
      ensures old(Value()).Credential() != Some(credential) ==>
        Accounted(Value()) == Accounted(old(Value())) - {credential}
      ensures forall v | v in old(cleanup) && v != credential :: v in cleanup
    {
      if Value().Credential() != Some(credential) { cleanup := cleanup - {credential}; }
    }
  }
}
