/**
 * Folder synchronization: project one delta page, then advance the cursor.
 * A cursor token is opaque; the model lets it remember the pages that led to it.
 */
module ExchangeSync {
  import opened Wrappers
  import opened ExchangeConnectionStore
  import Fencing = ExchangeLeaseFencing
  import opened ExchangeSendStore

  type Pid = nat
  type MessageId = nat

  datatype Page = Page(messages: seq<MessageId>, removed: seq<MessageId>, more: bool)

  datatype Token = Origin | Next(prev: Token, page: Page)

  /** Every message on every page before this token. */
  ghost function Before(t: Token): set<MessageId> {
    match t
    case Origin => {}
    case Next(prev, page) => Before(prev) + set m | m in page.messages
  }

  datatype Cursor = Cursor(generation: nat, version: nat, token: Token)

  datatype Projection = Projection(mailbox: Option<nat>, crmMessage: Option<nat>)

  datatype LinkRow = LinkRow(crmMessage: Option<nat>, mailbox: Option<nat>, folder: Option<nat>, removed: bool)

  datatype Place = Place(scope: Scope, folder: nat)

  datatype Spot = Spot(scope: Scope, message: MessageId)

  datatype SyncDb = SyncDb(rows: Db, cursors: map<Place, Cursor>, links: map<Spot, LinkRow>)

  /** The version check of a save: insert version 0, or replace exactly the expected version. */
  function SaveByVersion(
    d: SyncDb, w: Writer, folder: nat, expected: Option<nat>, token: Token): (SyncDb, Option<Cursor>) {
    var at := Place(w.scope, folder);
    if expected.Some? && !ValidCounter(expected.value) then (d, None)
    else if at !in d.cursors then
      if expected.Some? then (d, None)
      else var c := Cursor(w.generation, 0, token); (d.(cursors := d.cursors[at := c]), Some(c))
    else if expected == Some(d.cursors[at].version) then
      var c := Cursor(w.generation, d.cursors[at].version + 1, token); (d.(cursors := d.cursors[at := c]), Some(c))
    else (d, None)
  }

  /** The upserting statement: the lease and the version. */
  function SaveCursor(
    d: SyncDb, w: Writer, folder: nat, expected: Option<nat>, token: Token, now: Time): (SyncDb, Option<Cursor>) {
    if w.Holds(d.rows, now) then SaveByVersion(d, w, folder, expected, token) else (d, None)
  }

  function ResetCursor(d: SyncDb, w: Writer, folder: nat, expected: nat, now: Time): (SyncDb, bool) {
    var at := Place(w.scope, folder);
    if ValidCounter(expected) && w.Holds(d.rows, now) && at in d.cursors && d.cursors[at].version == expected
    then (d.(cursors := d.cursors - {at}), true) else (d, false)
  }

  /** An established link to a CRM message is never redirected to another one. */
  predicate MayProject(stored: LinkRow, p: Option<Projection>) {
    || stored.crmMessage.None? || p.None?
    || (p.value.crmMessage == stored.crmMessage && p.value.mailbox == stored.mailbox)
  }

  function UpsertLink(
    d: SyncDb, w: Writer, m: MessageId, folder: Option<nat>, p: Option<Projection>, now: Time)
    : (SyncDb, Option<LinkRow>)
  {
    var at := Spot(w.scope, m);
    if !w.Holds(d.rows, now) then (d, None)
    else if at !in d.links then
      var row := LinkRow(if p.Some? then p.value.crmMessage else None, if p.Some? then p.value.mailbox else None,
                         folder, false);
      (d.(links := d.links[at := row]), Some(row))
    else if MayProject(d.links[at], p) then
      var stored := d.links[at];
      var row := LinkRow(if p.Some? then p.value.crmMessage else stored.crmMessage,
                         if p.Some? then p.value.mailbox else stored.mailbox,
                         if folder.Some? then folder else stored.folder, false);
      (d.(links := d.links[at := row]), Some(row))
    else (d, None)
  }

  function MarkRemoved(d: SyncDb, w: Writer, folder: nat, ids: seq<MessageId>, now: Time): SyncDb {
    if !w.Holds(d.rows, now) || |ids| > 25 then d
    else d.(links := map at | at in d.links ::
      if at.scope == w.scope && at.message in ids && d.links[at].folder == Some(folder)
      then d.links[at].(removed := true) else d.links[at])
  }

  // ---- Processes -------------------------------------------------------------

  datatype Pc =
    | ReadingCursor
    | Fetching(cursor: Option<Cursor>)
    | Resetting(base: Cursor)
    | Linking(cursor: Option<Cursor>, page: Page, done: nat)
    | MarkingRemoved(cursor: Option<Cursor>, page: Page)
    | Saving(cursor: Option<Cursor>, page: Page)
    | Over

  datatype Proc = Proc(writer: Writer, folder: nat, pc: Pc)
  {
    function Go(next: Pc): Proc { this.(pc := next) }
    function Where(): Place { Place(writer.scope, folder) }
  }

  function Base(c: Option<Cursor>): Token { if c.Some? then c.value.token else Origin }

  /** One save that took effect: the token it replaced (if any) and the new one. */
  datatype Save = Save(replaced: Option<Token>, token: Token)

  datatype System = System(d: SyncDb, acquired: set<Guid>, procs: map<Pid, Proc>, saves: seq<Save>)

  const START := System(SyncDb(EMPTY, map[], map[]), {}, map[], [])

  datatype Reply = Delivered(page: Page) | DeltaReset | ProviderError

  datatype Event =
    | Rows(c: Fencing.Call)
    | Begin(pid: Pid, writer: Writer, folder: nat)
    | Turn(pid: Pid, fate: Fate, now: Time, reply: Reply, at: Option<nat>, projection: Option<Projection>)
    | Stop(pid: Pid)   // crash, a failed lease assertion, a missing detail, any other exception

  function Put(s: System, pid: Pid, p: Proc): System { s.(procs := s.procs[pid := p]) }

  function Await(s: System, pid: Pid, e: Event): System
    requires pid in s.procs && e.Turn?
  {
    var p := s.procs[pid];
    var seen := e.fate.Acked?;
    match p.pc
    case ReadingCursor =>
      Put(s, pid, p.Go(if seen then Fetching(if p.Where() in s.d.cursors then Some(s.d.cursors[p.Where()]) else None)
                       else Over))
    case Fetching(c) =>
      Put(s, pid, p.Go(match e.reply
        case Delivered(page) => Linking(c, page, 0)
        case DeltaReset => if c.Some? then Resetting(c.value) else Over
        case ProviderError => Over))
    case Resetting(base) =>
      Put(if e.fate.Effective() then s.(d := ResetCursor(s.d, p.writer, p.folder, base.version, e.now).0) else s, pid,
          p.Go(Over))
    case Linking(c, page, done) =>
      if done >= |page.messages| then Put(s, pid, p.Go(MarkingRemoved(c, page))) else
      var (d, row) := UpsertLink(s.d, p.writer, page.messages[done], e.at, e.projection, e.now);
      Put(if e.fate.Effective() then s.(d := d) else s, pid,
          p.Go(if seen && row.Some? then Linking(c, page, done + 1) else Over))
    case MarkingRemoved(c, page) =>
      Put(if e.fate.Effective() then s.(d := MarkRemoved(s.d, p.writer, p.folder, page.removed, e.now)) else s, pid,
          p.Go(if seen then Saving(c, page) else Over))
    case Saving(c, page) =>
      var (d, row) := SaveCursor(s.d, p.writer, p.folder, if c.Some? then Some(c.value.version) else None,
                                 Next(Base(c), page), e.now);
      var stored := if p.Where() in s.d.cursors then Some(s.d.cursors[p.Where()].token) else None;
      Put(if e.fate.Effective() && row.Some? then s.(d := d, saves := s.saves + [Save(stored, row.value.token)])
          else s, pid, p.Go(Over))
    case Over => s
  }

  /** The callback of an access runs under a lease that no other access ever held. */
  predicate MayBegin(s: System, pid: Pid, w: Writer) {
    && pid !in s.procs && s.d.rows.LeaseOwner() == Some(w.owner)
    && forall q | q in s.procs :: s.procs[q].writer.owner != w.owner
  }

  function Step(s: System, e: Event): System {
    match e
    case Rows(c) =>
      if c.Acquire? && c.owner in s.acquired then s
      else s.(d := s.d.(rows := Fencing.After(s.d.rows, c)),
              acquired := if c.Acquire? then s.acquired + {c.owner} else s.acquired)
    case Begin(pid, w, folder) => if MayBegin(s, pid, w) then Put(s, pid, Proc(w, folder, ReadingCursor)) else s
    case Turn(pid, _, _, _, _, _) => if pid in s.procs then Await(s, pid, e) else s
    case Stop(pid) => if pid in s.procs then Put(s, pid, s.procs[pid].Go(Over)) else s
  }

  function Run(s: System, es: seq<Event>): System
    decreases es
  {
    if es == [] then s else Run(Step(s, es[0]), es[1..])
  }

  // ---- The invariant -------------------------------------------------------

  ghost predicate Linked(d: SyncDb, scope: Scope, ms: set<MessageId>) {
    forall m | m in ms :: Spot(scope, m) in d.links
  }

  /** What a process has read and done so far is on record; while it holds the lease, its cursor is the stored one. */
  ghost predicate ProcOk(s: System, p: Proc) {
    && p.writer.owner in s.acquired
    && (p.pc.Fetching? || p.pc.Linking? || p.pc.MarkingRemoved? || p.pc.Saving? ==>
         && Linked(s.d, p.writer.scope, Before(Base(p.pc.cursor)))
         && (s.d.rows.LeaseOwner() == Some(p.writer.owner) ==>
              if p.pc.cursor.Some? then p.Where() in s.d.cursors && s.d.cursors[p.Where()] == p.pc.cursor.value
              else p.Where() !in s.d.cursors))
    && (p.pc.Linking? ==>
          p.pc.done <= |p.pc.page.messages|
            && Linked(s.d, p.writer.scope, set m | m in p.pc.page.messages[..p.pc.done]))
    && (p.pc.MarkingRemoved? || p.pc.Saving? ==> Linked(s.d, p.writer.scope, set m | m in p.pc.page.messages))
  }

  ghost predicate Extends(sv: Save) {
    sv.token.Next? && sv.token.prev == (if sv.replaced.Some? then sv.replaced.value else Origin)
  }

  ghost predicate Inv(s: System) {
    && (s.d.rows.LeaseOwner().Some? ==> s.d.rows.LeaseOwner().value in s.acquired)
    && (forall at | at in s.d.cursors :: Linked(s.d, at.scope, Before(s.d.cursors[at].token)))
    && (forall p, q | p in s.procs && q in s.procs && p != q :: s.procs[p].writer.owner != s.procs[q].writer.owner)
    && (forall p | p in s.procs :: ProcOk(s, s.procs[p]))
    && (forall i | 0 <= i < |s.saves| :: Extends(s.saves[i]))
  }

  /** Only the process moves. */
  lemma ProcessMoves(s: System, pid: Pid, p': Proc)
    requires Inv(s) && pid in s.procs && p'.writer == s.procs[pid].writer && ProcOk(s, p')
    ensures Inv(Put(s, pid, p'))
  {}

  /** Link rows are rewritten but never disappear. */
  lemma LinksGrow(s: System, d': SyncDb)
    requires Inv(s) && d'.rows == s.d.rows && d'.cursors == s.d.cursors && s.d.links.Keys <= d'.links.Keys
    ensures Inv(s.(d := d'))
    ensures forall scope, ms :: Linked(s.d, scope, ms) ==> Linked(d', scope, ms)
    ensures forall p :: ProcOk(s, p) ==> ProcOk(s.(d := d'), p)
  {}

  lemma CallKeepsInv(s: System, c: Fencing.Call)
    requires Inv(s)
    ensures Inv(Step(s, Rows(c)))
  {
    Fencing.HolderAndGeneration(s.d.rows, c);
    var s' := Step(s, Rows(c));
    forall p | p in s'.procs ensures ProcOk(s', s'.procs[p]) { assert ProcOk(s, s.procs[p]); }
  }

  lemma ReadAndFetchKeepInv(s: System, pid: Pid, e: Event)
    requires Inv(s) && pid in s.procs && e.Turn? && (s.procs[pid].pc.ReadingCursor? || s.procs[pid].pc.Fetching?)
    ensures Inv(Await(s, pid, e))
  {
    var p := s.procs[pid];
    assert ProcOk(s, p);
    ProcessMoves(s, pid, Await(s, pid, e).procs[pid]);
  }

  lemma LinkingKeepsInv(s: System, pid: Pid, e: Event)
    requires Inv(s) && pid in s.procs && e.Turn? && s.procs[pid].pc.Linking?
    ensures Inv(Await(s, pid, e))
  {
    var p := s.procs[pid];
    assert ProcOk(s, p);
    var (page, done) := (p.pc.page, p.pc.done);
    if done >= |page.messages| {
      assert page.messages[..done] == page.messages;
      ProcessMoves(s, pid, p.Go(MarkingRemoved(p.pc.cursor, page)));
    } else {
      var (d, row) := UpsertLink(s.d, p.writer, page.messages[done], e.at, e.projection, e.now);
      var s1 := if e.fate.Effective() then s.(d := d) else s;
      LinksGrow(s, s1.d);
      if e.fate.Acked? && row.Some? {
        assert page.messages[..done + 1] == page.messages[..done] + [page.messages[done]];
        ProcessMoves(s1, pid, p.Go(Linking(p.pc.cursor, page, done + 1)));
      } else {
        ProcessMoves(s1, pid, p.Go(Over));
      }
    }
  }

  lemma MarkingKeepsInv(s: System, pid: Pid, e: Event)
    requires Inv(s) && pid in s.procs && e.Turn? && s.procs[pid].pc.MarkingRemoved?
    ensures Inv(Await(s, pid, e))
  {
    var p := s.procs[pid];
    var s1 := if e.fate.Effective() then s.(d := MarkRemoved(s.d, p.writer, p.folder, p.pc.page.removed, e.now)) else s;
    LinksGrow(s, s1.d);
    assert ProcOk(s1, p);
    ProcessMoves(s1, pid, Await(s, pid, e).procs[pid]);
  }

  /** A cursor changes only under the lease, so only the process that then stops relied on it. */
  lemma CursorWriteKeepsInv(s: System, pid: Pid, d': SyncDb, saves': seq<Save>)
    requires Inv(s) && pid in s.procs && d'.rows == s.d.rows && d'.links == s.d.links
    requires d'.cursors != s.d.cursors ==> s.d.rows.LeaseOwner() == Some(s.procs[pid].writer.owner)
    requires forall at | at in d'.cursors :: Linked(s.d, at.scope, Before(d'.cursors[at].token))
    requires forall i | 0 <= i < |saves'| :: Extends(saves'[i])
    ensures Inv(Put(s.(d := d', saves := saves'), pid, s.procs[pid].Go(Over)))
  {
    var s' := Put(s.(d := d', saves := saves'), pid, s.procs[pid].Go(Over));
    forall q | q in s'.procs ensures ProcOk(s', s'.procs[q]) { assert ProcOk(s, s.procs[q]); }
  }

  lemma CursorTurnsKeepInv(s: System, pid: Pid, e: Event)
    requires Inv(s) && pid in s.procs && e.Turn? && (s.procs[pid].pc.Resetting? || s.procs[pid].pc.Saving?)
    ensures Inv(Await(s, pid, e))
  {
    var p := s.procs[pid];
    assert ProcOk(s, p);
    var s' := Await(s, pid, e);
    if p.pc.Saving? {
      assert Linked(s.d, p.writer.scope, Before(Next(Base(p.pc.cursor), p.pc.page)));
    }
    CursorWriteKeepsInv(s, pid, s'.d, s'.saves);
  }

  lemma StepKeepsInv(s: System, e: Event)
    requires Inv(s)
    ensures Inv(Step(s, e))
  {
    match e
    case Rows(c) => CallKeepsInv(s, c);
    case Begin(pid, w, folder) =>
      var s' := Step(s, e);
      forall q | q in s'.procs ensures ProcOk(s', s'.procs[q]) { if q in s.procs { assert ProcOk(s, s.procs[q]); } }
    case Turn(pid, _, _, _, _, _) =>
      if pid in s.procs {
        match s.procs[pid].pc
        case ReadingCursor | Fetching(_) => ReadAndFetchKeepInv(s, pid, e);
        case Linking(_, _, _) => LinkingKeepsInv(s, pid, e);
        case MarkingRemoved(_, _) => MarkingKeepsInv(s, pid, e);
        case Resetting(_) | Saving(_, _) => CursorTurnsKeepInv(s, pid, e);
        case Over =>
      }
    case Stop(pid) => if pid in s.procs { assert ProcOk(s, s.procs[pid]); ProcessMoves(s, pid, s.procs[pid].Go(Over)); }
  }

  lemma {:induction false} RunKeepsInv(s: System, es: seq<Event>)
    requires Inv(s)
    ensures Inv(Run(s, es))
    decreases es
  {
    if es != [] {
      StepKeepsInv(s, es[0]);
      RunKeepsInv(Step(s, es[0]), es[1..]);
    }
  }

  // ---- Main results --------------------------------------------------------

  /**
   * No mail is lost: in every run, with crashes, lost acknowledgements, replays
   * and delta resets, every message on every page before a stored cursor has a
   * link row.
   */
  lemma NoMailIsLost(es: seq<Event>, at: Place, m: MessageId)
    requires at in Run(START, es).d.cursors
    requires m in Before(Run(START, es).d.cursors[at].token)
    ensures Spot(at.scope, m) in Run(START, es).d.links
  {
    RunKeepsInv(START, es);
  }

  /** Cursors never fork: each save continues exactly the cursor it replaces, one page further. */
  lemma SavesNeverFork(es: seq<Event>)
    ensures forall i | 0 <= i < |Run(START, es).saves| :: Extends(Run(START, es).saves[i])
  {
    RunKeepsInv(START, es);
  }

  /**
   * By its version alone, a save continues the stored cursor exactly when the
   * token it read is still the stored one.
   */
  lemma VersionAloneExtendsIff(d: SyncDb, w: Writer, folder: nat, read: Cursor, page: Page)
    requires Place(w.scope, folder) in d.cursors
    requires d.cursors[Place(w.scope, folder)].version == read.version && ValidCounter(read.version)
    ensures
      var stored := d.cursors[Place(w.scope, folder)].token;
      var saved := SaveByVersion(d, w, folder, Some(read.version), Next(read.token, page)).1;
      saved.Some? && (Extends(Save(Some(stored), saved.value.token)) <==> stored == read.token)
  {}

  /** The token stored where the process saves. */
  function StoredToken(s: System, p: Proc): Option<Token> {
    if p.Where() in s.d.cursors then Some(s.d.cursors[p.Where()].token) else None
  }

  /**
   * Over every run, for every process about to save: where the version check
   * alone lets it through, the save continues the stored cursor exactly when the
   * process still holds what it read; and whoever holds the lease always does,
   * so that under the lease the version check never fails.
   */
  lemma SaversContinueIff(es: seq<Event>, pid: Pid, now: Time)
    requires pid in Run(START, es).procs && Run(START, es).procs[pid].pc.Saving?
    ensures
      var s := Run(START, es);
      var p := s.procs[pid];
      var (c, token) := (p.pc.cursor, Next(Base(p.pc.cursor), p.pc.page));
      var version := if c.Some? then Some(c.value.version) else None;
      var saved := SaveByVersion(s.d, p.writer, p.folder, version, token).1;
      var read := if c.Some? then Some(c.value.token) else None;
      && (saved.Some? ==> (Extends(Save(StoredToken(s, p), saved.value.token)) <==> StoredToken(s, p) == read))
      && (p.writer.Holds(s.d.rows, now) ==> StoredToken(s, p) == read)
      && (p.writer.Holds(s.d.rows, now) ==>
            (SaveCursor(s.d, p.writer, p.folder, version, token, now).1.Some? <==>
             (version.Some? ==> ValidCounter(version.value))))
  {
    RunKeepsInv(START, es);
    assert ProcOk(Run(START, es), Run(START, es).procs[pid]);
  }

  /**
   * The version check alone would let cursors fork. A displaced writer has read
   * version 0; the present lease holder resets the folder and saves another
   * version 0. Without the lease the late save of the displaced writer would
   * replace a cursor it does not continue; with it the save is refused at any time.
   */
  lemma VersionAloneCanFork(
    holder: Writer, displaced: Writer, folder: nat, now: Time, late: Time, d: SyncDb, page: Page)
    requires holder.Holds(d.rows, now) && displaced.scope == holder.scope && displaced.owner != holder.owner
    ensures
      var at := Place(holder.scope, folder);
      var first := d.(cursors := d.cursors[at := Cursor(displaced.generation, 0, Next(Origin, page))]);
      var other := Next(Origin, page.(more := !page.more));
      var again := SaveCursor(ResetCursor(first, holder, folder, 0, now).0, holder, folder, None, other, now).0;
      var token := Next(Next(Origin, page), page);
      var unfenced := SaveByVersion(again, displaced, folder, Some(0), token).1;
      && again.cursors[at].token == other && unfenced.Some? && !Extends(Save(Some(other), unfenced.value.token))
      && SaveCursor(again, displaced, folder, Some(0), token, late).1.None?
  {}

  // ---- The store -----------------------------------------------------------

  /** Folder cursors and message links, guarded by the connection row; each method is one statement. */
  class Folders {
    const connection: ExchangeConnectionStore.Rows
    var cursors: map<Place, Cursor>
    var links: map<Spot, LinkRow>

    function Value(): SyncDb
      reads this, connection
    {
      SyncDb(connection.Value(), cursors, links)
    }

    constructor (connection: ExchangeConnectionStore.Rows)
      ensures this.connection == connection && cursors == map[] && links == map[]
    {
      this.connection := connection;
      cursors, links := map[], map[];
    }

    method Save(w: Writer, folder: nat, expected: Option<nat>, token: Token, now: Time) returns (row: Option<Cursor>)
      modifies `cursors
      ensures (Value(), row) == SaveCursor(old(Value()), w, folder, expected, token, now)
      ensures row.None? ==> cursors == old(cursors)
      ensures row.Some? ==>
        w.Holds(connection.Value(), now) && row.value.token == token && row.value.generation == w.generation
      ensures row.Some? ==> cursors == old(cursors)[Place(w.scope, folder) := row.value]
      ensures row.Some? ==> forall k, t :: SaveCursor(Value(), w, folder, expected, k, t).1.None?
      ensures row.Some? && expected.Some? ==>
        old(cursors)[Place(w.scope, folder)].version == expected.value < row.value.version
    {
      var at := Place(w.scope, folder);
      if !w.Holds(connection.Value(), now) || (expected.Some? && !ValidCounter(expected.value)) { return None; }
      if at !in cursors {
        if expected.Some? { return None; }
        cursors := cursors[at := Cursor(w.generation, 0, token)];
      } else {
        if expected != Some(cursors[at].version) { return None; }
        cursors := cursors[at := Cursor(w.generation, cursors[at].version + 1, token)];
      }
      row := Some(cursors[at]);
    }

    method Reset(w: Writer, folder: nat, expected: nat, now: Time) returns (done: bool)
      modifies `cursors
      ensures (Value(), done) == ResetCursor(old(Value()), w, folder, expected, now)
      ensures !done ==> cursors == old(cursors)
      ensures done ==>
        Place(w.scope, folder) in old(cursors) && old(cursors)[Place(w.scope, folder)].version == expected
      ensures done ==>
        Place(w.scope, folder) !in cursors && cursors.Keys == old(cursors).Keys - {Place(w.scope, folder)}
      ensures done ==> forall v, t :: !ResetCursor(Value(), w, folder, v, t).1
      ensures forall at | at in cursors :: cursors[at] == old(cursors)[at]
    {
      var at := Place(w.scope, folder);
      if !ValidCounter(expected) || !w.Holds(connection.Value(), now) || at !in cursors
         || cursors[at].version != expected {
        return false;
      }
      cursors := cursors - {at};
      done := true;
    }

    method Link(
      w: Writer, m: MessageId, folder: Option<nat>, p: Option<Projection>, now: Time)
      returns (row: Option<LinkRow>)
      modifies `links
      ensures (Value(), row) == UpsertLink(old(Value()), w, m, folder, p, now)
      ensures row.None? ==> links == old(links)
      ensures row.Some? ==> links == old(links)[Spot(w.scope, m) := row.value] && !row.value.removed
      ensures row.Some? && Spot(w.scope, m) in old(links) && old(links)[Spot(w.scope, m)].crmMessage.Some? ==>
        row.value.crmMessage == old(links)[Spot(w.scope, m)].crmMessage
    {
      var at := Spot(w.scope, m);
      if !w.Holds(connection.Value(), now) { return None; }
      var stored := if at in links then links[at] else LinkRow(None, None, None, false);
      if at in links && !MayProject(stored, p) { return None; }
      if p.Some? { stored := stored.(crmMessage := p.value.crmMessage, mailbox := p.value.mailbox); }
      if folder.Some? { stored := stored.(folder := folder); }
      links := links[at := stored.(removed := false)];
      row := Some(links[at]);
    }

    method Remove(w: Writer, folder: nat, ids: seq<MessageId>, now: Time)
      modifies `links
      ensures Value() == MarkRemoved(old(Value()), w, folder, ids, now)
      ensures links.Keys == old(links).Keys
      ensures forall at | at in links :: links[at].(removed := old(links)[at].removed) == old(links)[at]
      ensures forall at | at in links && links[at] != old(links)[at] ::
        links[at].removed && at.scope == w.scope && at.message in ids && links[at].folder == Some(folder)
      ensures w.Holds(connection.Value(), now) && |ids| <= 25 ==>
        forall m | m in ids && Spot(w.scope, m) in links && links[Spot(w.scope, m)].folder == Some(folder) ::
          links[Spot(w.scope, m)].removed
    {
      if !w.Holds(connection.Value(), now) || |ids| > 25 { return; }
      links := map at | at in links ::
        if at.scope == w.scope && at.message in ids && links[at].folder == Some(folder)
        then links[at].(removed := true) else links[at];
    }
  }
}
