/** The send-state rows and the command rows they belong to, one function per statement. */
module ExchangeSendStore {
  import opened Wrappers
  import opened ExchangeConnectionStore

  datatype Phase = Prepared | Drafted | SendRequested | Accepted | Unknown | ManualReview | Rejected

  /** How far a send has come; every allowed transition climbs. */
  function Rank(p: Phase): nat {
    match p
    case Prepared => 0
    case Drafted => 1
    case SendRequested => 2
    case Unknown => 3
    case ManualReview => 4
    case Accepted => 5
    case Rejected => 5
  }

  predicate Allowed(from: Phase, to: Phase) {
    match from
    case Prepared => (to.Drafted? || to.Accepted? || to.Unknown? || to.ManualReview? || to.Rejected?)
    case Drafted => (to.SendRequested? || to.Accepted? || to.ManualReview? || to.Rejected?)
    case SendRequested => (to.Accepted? || to.Unknown? || to.ManualReview? || to.Rejected?)
    case Unknown => (to.Accepted? || to.ManualReview? || to.Rejected?)
    case ManualReview => to == Accepted
    case Accepted => false
    case Rejected => false
  }

  predicate NeedsGraphId(p: Phase) { (p.Drafted? || p.SendRequested? || p.Accepted?) }

  datatype Scope = Scope(tenant: Guid, mailbox: Guid)

  /** A lease-fenced writer: its scope and its guard. */
  datatype Writer = Writer(scope: Scope, owner: Guid, generation: nat)
  {
    predicate Holds(rows: Db, now: Time) {
      ValidCounter(generation) && MailGuardHolds(rows, scope.tenant, scope.mailbox, owner, generation, now)
    }
  }

  datatype SendState = SendState(scope: Scope, correlation: Guid, graphId: Option<nat>, phase: Phase, version: nat)

  datatype CommandStatus = Open | Dispatching | Sent | Stopped

  /**
   * authorized: operator confirmation, compliance and message snapshots are recorded.
   * snapshotValid: the stored snapshot parses and belongs to this command.
   * conversation: the provider conversation id kept in the snapshot.
   */
  datatype Command = Command(
    exchange: bool, status: CommandStatus, authorized: bool, snapshotValid: bool,
    providerId: Option<nat>, conversation: Option<nat>, manualMark: bool)

  datatype SendDb = SendDb(rows: Db, states: map<Guid, SendState>, commands: map<Guid, Command>)

  function CreateSendState(
    d: SendDb, w: Writer, command: Guid, correlation: Guid, now: Time): (SendDb, Option<SendState>) {
    if && w.Holds(d.rows, now)
       && command in d.commands && d.commands[command].exchange
       && d.commands[command].status == Dispatching && d.commands[command].authorized
       && command !in d.states
       && (forall c | c in d.states :: d.states[c].correlation != correlation)
    then
      var row := SendState(w.scope, correlation, None, Prepared, 0);
      (d.(states := d.states[command := row]), Some(row))
    else (d, None)
  }

  /** A guarded update returns its row, returns nothing, or violates a unique index and throws. */
  datatype Updated = Row(state: SendState) | NoRow | Violation

  function Merged(stored: Option<nat>, given: Option<nat>): Option<nat> {
    if stored.Some? then stored else given
  }

  predicate TransitionApplies(
    d: SendDb, w: Writer, command: Guid, expected: nat, from: Phase, to: Phase, graphId: Option<nat>, now: Time) {
    && ValidCounter(expected) && Allowed(from, to)
    && command in d.states
    && d.states[command].scope == w.scope
    && d.states[command].phase == from && d.states[command].version == expected
    && w.Holds(d.rows, now)
    && (graphId.None? || d.states[command].graphId.None? || d.states[command].graphId == graphId)
    && (NeedsGraphId(to) ==> Merged(d.states[command].graphId, graphId).Some?)
    && command in d.commands && d.commands[command].exchange
    && (d.commands[command].status.Dispatching? || d.commands[command].status.Sent?)
  }

  function Transition(
    d: SendDb, w: Writer, command: Guid, expected: nat, from: Phase, to: Phase, graphId: Option<nat>, now: Time)
    : (SendDb, Updated)
  {
    if !TransitionApplies(d, w, command, expected, from, to, graphId, now) then (d, NoRow)
    else
      var row := d.states[command];
      var row' := row.(phase := to, version := row.version + 1, graphId := Merged(row.graphId, graphId));
      if row'.graphId.Some? && exists c | c in d.states && c != command ::
        d.states[c].scope == row'.scope && d.states[c].graphId == row'.graphId
      then (d, Violation)
      else (d.(states := d.states[command := row']), Row(row'))
  }

  /** Another Exchange command already carries this provider id. */
  predicate IdTaken(d: SendDb, command: Guid, id: nat) {
    exists c | c in d.commands && c != command :: d.commands[c].exchange && d.commands[c].providerId == Some(id)
  }

  /** Reconciliation marks the command sent; the flag says whether the unique index threw. */
  function MarkReconciled(d: SendDb, command: Guid, id: nat, conversation: nat): (SendDb, Option<Command>, bool) {
    if && command in d.commands && d.commands[command].exchange && d.commands[command].authorized
       && ((d.commands[command].status == Dispatching && d.commands[command].providerId.None?)
           || (d.commands[command].status == Sent && d.commands[command].providerId == Some(id)))
    then
      if IdTaken(d, command, id) then (d, None, true)
      else
        var c := d.commands[command].(status := Sent, providerId := Some(id), conversation := Some(conversation),
                                      manualMark := false);
        (d.(commands := d.commands[command := c]), Some(c), false)
    else (d, None, false)
  }

  function MarkManual(d: SendDb, command: Guid): SendDb {
    if && command in d.commands && d.commands[command].exchange && d.commands[command].status == Dispatching
       && d.commands[command].providerId.None? && d.commands[command].authorized
    then d.(commands := d.commands[command := d.commands[command].(manualMark := true)])
    else d
  }

  /** The send route records the acceptance it was told about. */
  function MarkSent(d: SendDb, command: Guid, id: nat, conversation: nat): (SendDb, bool) {
    if command in d.commands && d.commands[command].exchange && d.commands[command].status == Dispatching
       && !IdTaken(d, command, id)
    then
      var c := d.commands[command].(status := Sent, providerId := Some(id), conversation := Some(conversation),
                                    manualMark := false);
      (d.(commands := d.commands[command := c]), true)
    else (d, false)
  }

  /** The route's last resort after an accepted send whose bookkeeping failed. */
  function MarkSentFallback(d: SendDb, command: Guid, id: nat): SendDb {
    if command in d.commands && d.commands[command].exchange
       && (d.commands[command].status.Dispatching? || d.commands[command].status.Sent?) && !IdTaken(d, command, id)
    then
      var c := d.commands[command].(status := Sent, providerId := Some(id), manualMark := false);
      d.(commands := d.commands[command := c])
    else d
  }

  /** The deliverability canary records the acceptance of its own command; it keeps no conversation. */
  function MarkCanary(d: SendDb, command: Guid, id: nat): SendDb {
    if command in d.commands && d.commands[command].exchange && d.commands[command].status == Dispatching
       && !IdTaken(d, command, id)
    then
      var c := d.commands[command].(status := Sent, providerId := Some(id), manualMark := false);
      d.(commands := d.commands[command := c])
    else d
  }

  // ---- What the unique indexes keep -----------------------------------------

  /** No two rows of one mailbox carry the same graph id. */
  ghost predicate GraphIdsUnique(d: SendDb) {
    forall c, e | c in d.states && e in d.states && c != e && d.states[c].scope == d.states[e].scope
          && d.states[c].graphId.Some? ::
      d.states[c].graphId != d.states[e].graphId
  }

  /** No two Exchange commands carry the same provider id. */
  ghost predicate ProviderIdsUnique(d: SendDb) {
    forall c, e | c in d.commands && e in d.commands && c != e && d.commands[c].exchange && d.commands[e].exchange
          && d.commands[c].providerId.Some? ::
      d.commands[c].providerId != d.commands[e].providerId
  }

  ghost predicate CorrelationsUnique(d: SendDb) {
    forall c, e | c in d.states && e in d.states && c != e :: d.states[c].correlation != d.states[e].correlation
  }

  // ---- The store -----------------------------------------------------------

  /** Send states and commands, guarded by the connection row; each method is one statement. */
  class Sends {
    const connection: Rows
    var states: map<Guid, SendState>
    var commands: map<Guid, Command>

    function Value(): SendDb
      reads this, connection
    {
      SendDb(connection.Value(), states, commands)
    }

    constructor (connection: Rows)
      ensures this.connection == connection && states == map[] && commands == map[]
    {
      this.connection := connection;
      states, commands := map[], map[];
    }

    method Create(w: Writer, command: Guid, correlation: Guid, now: Time) returns (row: Option<SendState>)
      modifies `states
      ensures (Value(), row) == CreateSendState(old(Value()), w, command, correlation, now)
      ensures row.None? ==> states == old(states)
      ensures row.Some? ==>
        command !in old(states) && states == old(states)[command := row.value] && w.Holds(connection.Value(), now)
      ensures row.Some? ==> row.value.phase == Prepared && row.value.version == 0 && row.value.graphId.None?
      ensures row.Some? ==> forall v: Writer, k, t :: CreateSendState(Value(), v, command, k, t).1.None?
      ensures old(CorrelationsUnique(Value())) ==> CorrelationsUnique(Value())
      ensures old(GraphIdsUnique(Value())) ==> GraphIdsUnique(Value())
    {
      if !w.Holds(connection.Value(), now) || command !in commands || command in states { return None; }
      var c := commands[command];
      if !c.exchange || c.status != Dispatching || !c.authorized { return None; }
      if exists other | other in states :: states[other].correlation == correlation { return None; }
      states := states[command := SendState(w.scope, correlation, None, Prepared, 0)];
      row := Some(states[command]);
    }

    /** One step up the phases: the version counts it, the graph id is kept once set. */
    method Advance(
      w: Writer, command: Guid, expected: nat, from: Phase, to: Phase, graphId: Option<nat>, now: Time)
      returns (updated: Updated)
      modifies `states
      ensures (Value(), updated) == Transition(old(Value()), w, command, expected, from, to, graphId, now)
      ensures updated.Row? ==>
        && command in old(states) && Rank(updated.state.phase) > Rank(old(states)[command].phase)
        && updated.state.version == old(states)[command].version + 1
        && (old(states)[command].graphId.Some? ==> updated.state.graphId == old(states)[command].graphId)
      ensures !updated.Row? ==> states == old(states)
    {
      if !TransitionApplies(Value(), w, command, expected, from, to, graphId, now) { return NoRow; }
      var row := states[command];
      row := row.(phase := to, version := row.version + 1,
                  graphId := if row.graphId.Some? then row.graphId else graphId);
      if row.graphId.Some? && exists c | c in states && c != command ::
        states[c].scope == row.scope && states[c].graphId == row.graphId {
        return Violation;
      }
      states := states[command := row];
      updated := Row(row);
    }

    method Reconcile(command: Guid, id: nat, conversation: nat) returns (row: Option<Command>, threw: bool)
      modifies `commands
      ensures (Value(), row, threw) == MarkReconciled(old(Value()), command, id, conversation)
      ensures row.None? ==> commands == old(commands)
      ensures row.Some? ==>
        row.value.status == Sent && row.value.providerId == Some(id) && commands == old(commands)[command := row.value]
      ensures row.Some? && old(commands)[command].providerId.Some? ==> old(commands)[command].providerId == Some(id)
      ensures threw ==> exists c ::
        c in commands && c != command && commands[c].exchange && commands[c].providerId == Some(id)
      ensures old(ProviderIdsUnique(Value())) ==> ProviderIdsUnique(Value())
    {
      row, threw := None, false;
      if command !in commands { return; }
      var c := commands[command];
      if !c.exchange || !c.authorized { return; }
      if !((c.status == Dispatching && c.providerId.None?) || (c.status == Sent && c.providerId == Some(id))) {
        return;
      }
      if IdTaken(Value(), command, id) { return None, true; }
      commands := commands[command := c.(status := Sent, providerId := Some(id), conversation := Some(conversation),
                                         manualMark := false)];
      row := Some(commands[command]);
    }

    method FlagManual(command: Guid)
      modifies `commands
      ensures Value() == MarkManual(old(Value()), command)
      ensures commands.Keys == old(commands).Keys
      ensures forall c | c in commands :: commands[c].(manualMark := old(commands)[c].manualMark) == old(commands)[c]
      ensures forall c | c in commands && commands[c] != old(commands)[c] ::
        c == command && commands[c].manualMark && commands[c].status == Dispatching && commands[c].providerId.None?
    {
      if command !in commands { return; }
      var c := commands[command];
      if c.exchange && c.status == Dispatching && c.providerId.None? && c.authorized {
        commands := commands[command := c.(manualMark := true)];
      }
    }
  }
}
