/** The invalidation protocol: API calls write the tables and later append
    events; one consumer reads, reloads and acknowledges; refresh tickers reload
    on their own. What is proved holds after every run of these steps. */
module Stream {
  import opened Base
  import opened Tables
  import opened Api
  import opened ApiIntegrity
  import opened Appdb
  import opened ApiNotify

  /** What the consumer is doing with entry `i`: between reading a room's rows
      and installing the entry built from them, or between handling entry `i`
      and acknowledging it. */
  datatype Work = Idle | Fetched(i: nat, r: Id, snap: Option<Content>) | Acking(i: nat)

  /** `owed` holds the events of finished calls not yet appended; an entry's id
      is its index in `stream`; entries before `read` were delivered; `pel` is
      the pending-entries list; `cache` is the store, up to row order;
      `refreshing` holds the entries refresh tickers have built but not installed.
      Entries are taken for what they say, whatever the order of their lists.
      `unrepaired` is not part of the program: rooms that a write without an
      event, or an outdated refresh, left out of date, and that have not been
      reloaded since. */
  datatype System = System(
    db: Db, owed: multiset<Event>, stream: seq<Event>, read: nat, pel: set<nat>,
    live: bool, batch: seq<nat>, work: Work,
    cache: map<Id, Content>, refreshing: map<Id, Option<Content>>, unrepaired: set<Id>)

  datatype Step =
    | Call(op: Op)
    | Append(e: Event)
    | Inject(e: Event)
    | ReadNew(n: nat)
    | ReadPending(ok: bool)
    | Dispatch(ok: bool)
    | Install
    | Acknowledge(ok: bool)
    | Refresh(r: Id)
    | RefreshFetch(r: Id)
    | RefreshInstall(r: Id)
    | Restart

  const COUNT := 10

  /** What WarmCache leaves in an empty store. */
  function CacheOf(db: Db): map<Id, Content> {
    map r | r in db.rooms && Current(db, r).Some? :: Current(db, r).value
  }

  /** What ReloadRoom does to the store once it has built the entry. */
  function Load(cache: map<Id, Content>, r: Id, snap: Option<Content>): map<Id, Content> {
    if snap.Some? then cache[r := snap.value] else cache - {r}
  }

  function Entry(cache: map<Id, Content>, r: Id): Option<Content> {
    if r in cache then Some(cache[r]) else None
  }

  function Range(from: nat, n: nat): (s: seq<nat>)
    ensures |s| == n && forall i :: 0 <= i < n ==> s[i] == from + i
  {
    seq(n, i requires i >= 0 => from + i)
  }

  function Within(pel: set<nat>): nat -> bool { (i: nat) => i in pel }

  /** The pending-entries list in id order. */
  function PendingList(pel: set<nat>, read: nat): seq<nat> { Filter(Range(0, read), Within(pel)) }

  function First(s: seq<nat>, n: nat): seq<nat> { if |s| <= n then s else s[..n] }

  const START := System(EMPTY_DB, multiset{}, [], 0, {}, false, [], Idle, map[], map[], {})

  // ---------------------------------------------------------------------
  // Steps. A step whose guard fails changes nothing.
  // ---------------------------------------------------------------------

  /** The rooms whose entries the request outdates without an event. */
  function Outdated(db: Db, op: Op): set<Id> { set r | r in SilentRooms(db, op) && Outdates(db, op, r) }

  /** `silent` are these rooms. */
  function DoCall(s: System, e: Effect, silent: set<Id>): System {
    s.(db := e.db, owed := s.owed + multiset(e.sent),
       unrepaired := if e.reply.Done? then s.unrepaired + silent else s.unrepaired)
  }

  function DoAppend(s: System, e: Event): System {
    if e !in s.owed then s else s.(owed := s.owed - multiset{e}, stream := s.stream + [e])
  }

  /** Entries nobody in this system writes. */
  function DoInject(s: System, e: Event): System {
    if Foreign(e) then s.(stream := s.stream + [e]) else s
  }

  function DoReadNew(s: System, n: nat): System
    requires s.read <= |s.stream|
  {
    if !s.live || s.batch != [] || !s.work.Idle? || n > COUNT || s.read + n > |s.stream| then s
    else
      s.(read := s.read + n,
         pel := s.pel + (set i | i in Range(s.read, n)),
         batch := Range(s.read, n))
  }

  /** One turn of drainPending: an error or an empty list ends it. */
  function DoReadPending(s: System, ok: bool): System {
    if s.live || s.batch != [] || !s.work.Idle? then s
    else if !ok || PendingList(s.pel, s.read) == [] then s.(live := true)
    else s.(batch := First(PendingList(s.pel, s.read), COUNT))
  }

  /** The start of dispatch. `ok` says whether the database reads succeed. */
  function DoDispatch(s: System, ok: bool): System
    requires forall i :: i in s.batch ==> i < |s.stream|
  {
    if s.batch == [] || !s.work.Idle? then s
    else
      var i := s.batch[0];
      assert i in s.batch;
      var s' := s.(batch := s.batch[1..]);
      match s.stream[i]
      case NoEventField => s'.(work := Acking(i))
      case UnknownEvent => s'.(work := Acking(i))
      case NoHwId => s'
      case BadRoomId => s'
      case RoomDeleted(r) => s'.(cache := s.cache - {r}, work := Acking(i), unrepaired := s.unrepaired - {r})
      case _ =>
        var r := s.stream[i].room;
        if ok then s'.(work := Fetched(i, r, Current(s.db, r)), unrepaired := s.unrepaired - {r}) else s'
  }

  function DoInstall(s: System): System {
    if !s.work.Fetched? then s
    else
      s.(cache := Load(s.cache, s.work.r, s.work.snap), work := Acking(s.work.i),
         unrepaired := if s.work.snap == Current(s.db, s.work.r) then s.unrepaired - {s.work.r} else s.unrepaired)
  }

  function DoAcknowledge(s: System, ok: bool): System {
    if !s.work.Acking? then s
    else s.(pel := if ok then s.pel - {s.work.i} else s.pel, work := Idle)
  }

  /** The consumer holds an entry of this room that is no longer right. */
  predicate Outrun(s: System, r: Id) {
    s.work.Fetched? && s.work.r == r && s.work.snap != Current(s.db, r)
  }

  /** Installing a right entry repairs the room, unless an outdated one is about
      to be installed on top. */
  function DoRefresh(s: System, r: Id, snap: Option<Content>): System {
    s.(cache := Load(s.cache, r, snap),
       refreshing := s.refreshing - {r},
       unrepaired := if snap != Current(s.db, r) then s.unrepaired + {r}
                     else if Outrun(s, r) then s.unrepaired
                     else s.unrepaired - {r})
  }

  predicate WellFormed(s: System) {
    && s.read <= |s.stream|
    && (forall i :: i in s.pel ==> i < s.read)
    && (forall i :: i in s.batch ==> i < s.read)
    && (!s.work.Idle? ==> s.work.i < s.read)
    && (s.work.Fetched? ==> Names(s.stream[s.work.i], s.work.r))
  }

  /** The entry the next dispatch takes. */
  function NextEntry(s: System): Option<Event>
    requires WellFormed(s)
  {
    if s.batch != [] && s.work.Idle? then
      assert s.batch[0] in s.batch;
      Some(s.stream[s.batch[0]])
    else None
  }

  function Next(s: System, step: Step): System
    requires WellFormed(s)
  {
    match step
    case Call(op) => DoCall(s, Apply(s.db, op), Outdated(s.db, op))
    case Append(e) => DoAppend(s, e)
    case Inject(e) => DoInject(s, e)
    case ReadNew(n) => DoReadNew(s, n)
    case ReadPending(ok) => DoReadPending(s, ok)
    case Dispatch(ok) => DoDispatch(s, ok)
    case Install => DoInstall(s)
    case Acknowledge(ok) => DoAcknowledge(s, ok)
    case Refresh(r) => DoRefresh(s, r, Current(s.db, r))
    case RefreshFetch(r) => s.(refreshing := s.refreshing[r := Current(s.db, r)])
    case RefreshInstall(r) => if r in s.refreshing then DoRefresh(s, r, s.refreshing[r]) else s
    case Restart =>
      s.(live := false, batch := [], work := Idle, cache := CacheOf(s.db), refreshing := map[], unrepaired := {})
  }

  lemma ReadsWellFormed(s: System, step: Step)
    requires WellFormed(s) && (step.ReadNew? || step.ReadPending? || step.Append? || step.Inject?)
    ensures WellFormed(Next(s, step))
  {
    FilterMembers(Range(0, s.read), Within(s.pel));
  }

  lemma DispatchWellFormed(s: System, ok: bool)
    requires WellFormed(s)
    ensures WellFormed(DoDispatch(s, ok))
  {
    if s.batch != [] {
      assert s.batch[0] in s.batch;
      assert forall i :: i in s.batch[1..] ==> i in s.batch;
    }
  }

  lemma WorkWellFormed(s: System, step: Step)
    requires WellFormed(s) && (step.Install? || step.Acknowledge?)
    ensures WellFormed(Next(s, step))
  {
  }

  lemma CallWellFormed(s: System, e: Effect, silent: set<Id>)
    requires WellFormed(s)
    ensures WellFormed(DoCall(s, e, silent))
  {
  }

  lemma NextWellFormed(s: System, step: Step)
    requires WellFormed(s)
    ensures WellFormed(Next(s, step))
  {
    match step
    case Call(op) => CallWellFormed(s, Apply(s.db, op), Outdated(s.db, op));
    case ReadNew(_) => ReadsWellFormed(s, step);
    case ReadPending(_) => ReadsWellFormed(s, step);
    case Append(_) => ReadsWellFormed(s, step);
    case Inject(_) => ReadsWellFormed(s, step);
    case Dispatch(ok) => DispatchWellFormed(s, ok);
    case Install => WorkWellFormed(s, step);
    case Acknowledge(_) => WorkWellFormed(s, step);
    case _ =>
  }

  /** The state after a run. */
  function Exec(s: System, steps: seq<Step>): (r: System)
    requires WellFormed(s)
    ensures WellFormed(r)
  {
    if steps == [] then s
    else
      var last := steps[|steps| - 1];
      var before := Exec(s, steps[..|steps| - 1]);
      NextWellFormed(before, last);
      Next(before, last)
  }

  // ---------------------------------------------------------------------
  // Stale implies pending
  // ---------------------------------------------------------------------

  /** The room's entry says what one built from the database now would, or is
      absent like its room. */
  predicate InSync(s: System, r: Id) { Entry(s.cache, r) == Current(s.db, r) }

  predicate Owed(s: System, r: Id) { exists e :: e in s.owed && Names(e, r) }

  /** Entry `i` is unread or unacknowledged. */
  predicate Waiting(s: System, i: int) { 0 <= i < |s.stream| && (i >= s.read || i in s.pel) }

  predicate Queued(s: System, r: Id, except: Option<nat>) {
    exists i :: 0 <= i < |s.stream| && Waiting(s, i) && Some(i) != except && Names(s.stream[i], r)
  }

  /** An event naming the room is still owed, unread or unacknowledged; with
      `except`, one besides that entry. */
  predicate Pending(s: System, r: Id, except: Option<nat>) { Owed(s, r) || Queued(s, r, except) }

  ghost predicate DbOk(s: System) {
    IdsBelowNext(s.db) && References(s.db) && UniqueBy(s.db.devices, HwKey) && UniqueBy(s.db.devices, DeviceKey)
  }

  /** Only rooms that are gone for good are announced as deleted. */
  ghost predicate DeletionsTrue(s: System) {
    && (forall r: Id :: RoomDeleted(r) in s.owed ==> r < s.db.next && r !in s.db.rooms)
    && (forall i :: 0 <= i < |s.stream| && s.stream[i].RoomDeleted? ==>
          s.stream[i].room < s.db.next && s.stream[i].room !in s.db.rooms)
  }

  /** The stream entry the consumer has already read the rows for. */
  function Taken(s: System, r: Id): Option<nat> {
    if s.work.Acking? || (s.work.Fetched? && s.work.r == r) then Some(s.work.i) else None
  }

  /** What the cache will say of the room once the consumer has installed
      what it holds. */
  function Coming(s: System, r: Id): Option<Content> {
    if s.work.Fetched? && s.work.r == r then s.work.snap else Entry(s.cache, r)
  }

  /** The strengthened invariant: a room whose next content is out of date has
      an event pending besides the one in hand. */
  ghost predicate Covered(s: System, r: Id) {
    Coming(s, r) != Current(s.db, r) ==> Pending(s, r, Taken(s, r)) || r in s.unrepaired
  }

  ghost predicate AllCovered(s: System) { forall r :: Covered(s, r) }

  /** What is being handled, and what is still to handle, is unacknowledged. */
  ghost predicate InHand(s: System) {
    && Distinct(s.batch)
    && (forall i :: i in s.batch ==> i in s.pel)
    && (!s.work.Idle? ==> s.work.i !in s.batch)
    && (s.work.Fetched? ==> s.work.i in s.pel)
  }

  ghost predicate Inv(s: System) { WellFormed(s) && DbOk(s) && DeletionsTrue(s) && InHand(s) && AllCovered(s) }

  lemma CallKeepsInv(s: System, op: Op)
    requires Inv(s)
    ensures Inv(DoCall(s, Apply(s.db, op), Outdated(s.db, op)))
  {
    var e, s' := Apply(s.db, op), DoCall(s, Apply(s.db, op), Outdated(s.db, op));
    KeepsIds(s.db, op);
    KeepsReferences(s.db, op);
    KeepsUniqueDevices(s.db, op);
    forall r: Id | RoomDeleted(r) in s'.owed ensures r < s'.db.next && r !in s'.db.rooms {
      if RoomDeleted(r) in e.sent { RoomDeletedIsTrue(s.db, op, r); } else { DeletedStaysDeleted(s.db, op, r); }
    }
    forall i | 0 <= i < |s'.stream| && s'.stream[i].RoomDeleted?
      ensures s'.stream[i].room < s'.db.next && s'.stream[i].room !in s'.db.rooms
    {
      DeletedStaysDeleted(s.db, op, s.stream[i].room);
    }
    forall r ensures Covered(s', r) { CallCovers(s, op, r); }
  }

  lemma EntryChanges(db: Db, op: Op, r: Id)
    requires IdsBelowNext(db) && References(db) && UniqueBy(db.devices, HwKey)
    requires Current(Apply(db, op).db, r) != Current(db, r)
    ensures Apply(db, op).reply.Done? && (Notified(Apply(db, op).sent, r) || r in Outdated(db, op))
  {
    if Apply(db, op).reply.Failed? { RefusedChangesNothing(db, op); }
    ChangesAreNotified(db, op, r);
    if r in SilentRooms(db, op) { SilentChangesExactly(db, op, r); }
  }

  lemma CallCovers(s: System, op: Op, r: Id)
    requires Inv(s)
    ensures Covered(DoCall(s, Apply(s.db, op), Outdated(s.db, op)), r)
  {
    var e, s' := Apply(s.db, op), DoCall(s, Apply(s.db, op), Outdated(s.db, op));
    if Current(e.db, r) != Current(s.db, r) {
      EntryChanges(s.db, op, r);
      if Notified(e.sent, r) {
        var x :| x in e.sent && Names(x, r);
        assert x in s'.owed;
      }
    } else {
      assert Covered(s, r);
      if x :| x in s.owed && Names(x, r) { assert x in s'.owed; }
      QueueKept(s, s', r, Taken(s, r), Taken(s, r));
    }
  }

  /** Waiting entries that name the room stay waiting. */
  lemma QueueKept(s: System, s': System, r: Id, except: Option<nat>, except': Option<nat>)
    requires s.stream <= s'.stream
    requires forall i :: Waiting(s, i) && Names(s.stream[i], r) && Some(i) != except ==> Waiting(s', i) && Some(i) != except'
    ensures Queued(s, r, except) ==> Queued(s', r, except')
  {
    if Queued(s, r, except) {
      var i :| 0 <= i < |s.stream| && Waiting(s, i) && Some(i) != except && Names(s.stream[i], r);
      assert s'.stream[i] == s.stream[i];
    }
  }

  lemma AppendKeepsInv(s: System, e: Event)
    requires Inv(s)
    ensures Inv(DoAppend(s, e))
  {
    if e in s.owed {
      var s' := DoAppend(s, e);
      var n := |s.stream|;
      assert s'.stream[n] == e && Waiting(s', n);
      forall r ensures Covered(s', r) {
        assert Covered(s, r);
        QueueKept(s, s', r, Taken(s, r), Taken(s', r));
        if x :| x in s.owed && Names(x, r) {
          if x == e { assert Queued(s', r, Taken(s', r)); } else { assert x in s'.owed; }
        }
      }
    }
  }

  lemma InjectKeepsInv(s: System, e: Event)
    requires Inv(s)
    ensures Inv(DoInject(s, e))
  {
    var s' := DoInject(s, e);
    forall r ensures Covered(s', r) {
      assert Covered(s, r);
      QueueKept(s, s', r, Taken(s, r), Taken(s', r));
    }
  }

  lemma ReadNewKeepsInv(s: System, n: nat)
    requires Inv(s)
    ensures Inv(DoReadNew(s, n))
  {
    var s' := DoReadNew(s, n);
    forall i | s.read <= i < s.read + n ensures i in Range(s.read, n) { assert Range(s.read, n)[i - s.read] == i; }
    forall r ensures Covered(s', r) {
      assert Covered(s, r);
      QueueKept(s, s', r, Taken(s, r), Taken(s', r));
    }
  }

  lemma ReadPendingKeepsInv(s: System, ok: bool)
    requires Inv(s)
    ensures Inv(DoReadPending(s, ok))
  {
    var s' := DoReadPending(s, ok);
    FilterMembers(Range(0, s.read), Within(s.pel));
    FilterDistinct(Range(0, s.read), Within(s.pel));
    forall r ensures Covered(s', r) {
      assert Covered(s, r);
      QueueKept(s, s', r, Taken(s, r), Taken(s', r));
    }
  }

  /** Dispatching the entry leaves every other room as covered as it was. */
  lemma OtherRoomCovered(s: System, s': System, r: Id)
    requires Inv(s) && s.batch != [] && s.work.Idle? && s.batch[0] < |s.stream|
    requires s'.db == s.db && s'.owed == s.owed && s'.stream == s.stream && s'.read == s.read && s'.pel == s.pel
    requires (r in s.unrepaired ==> r in s'.unrepaired) && Coming(s', r) == Coming(s, r)
    requires Taken(s', r) == None || (Taken(s', r) == Some(s.batch[0]) && !Names(s.stream[s.batch[0]], r))
    ensures Covered(s', r)
  {
    assert Covered(s, r);
    QueueKept(s, s', r, None, Taken(s', r));
  }

  lemma DispatchCovers(s: System, ok: bool, r: Id)
    requires Inv(s) && s.batch != [] && s.work.Idle?
    requires s.batch[0] in s.batch
    ensures Covered(DoDispatch(s, ok), r)
  {
    var s' := DoDispatch(s, ok);
    var e := s.stream[s.batch[0]];
    if Names(e, r) && !s'.work.Idle? {
      assert Coming(s', r) == Current(s.db, r);
    } else {
      OtherRoomCovered(s, s', r);
    }
  }

  lemma DispatchShape(s: System, ok: bool)
    requires WellFormed(s) && s.batch != [] && s.work.Idle?
    requires s.batch[0] in s.batch
    ensures var s', i := DoDispatch(s, ok), s.batch[0];
      && s'.(cache := s.cache, work := Idle, unrepaired := s.unrepaired) == s.(batch := s.batch[1..])
      && (s'.work == Idle || s'.work == Acking(i) || (s'.work.Fetched? && s'.work.i == i && Names(s.stream[i], s'.work.r)))
  {
  }

  lemma DispatchKeepsInv(s: System, ok: bool)
    requires Inv(s)
    ensures Inv(DoDispatch(s, ok))
  {
    if s.batch != [] && s.work.Idle? {
      assert s.batch[0] in s.batch;
      assert forall k :: k in s.batch[1..] ==> k in s.batch;
      DispatchShape(s, ok);
      forall r ensures Covered(DoDispatch(s, ok), r) { DispatchCovers(s, ok, r); }
    }
  }

  lemma InstallKeepsInv(s: System)
    requires Inv(s)
    ensures Inv(DoInstall(s))
  {
    var s' := DoInstall(s);
    forall r ensures Covered(s', r) {
      assert Covered(s, r);
      QueueKept(s, s', r, Taken(s, r), Taken(s', r));
    }
  }

  lemma AcknowledgeKeepsInv(s: System, ok: bool)
    requires Inv(s)
    ensures Inv(DoAcknowledge(s, ok))
  {
    var s' := DoAcknowledge(s, ok);
    forall r ensures Covered(s', r) {
      assert Covered(s, r);
      QueueKept(s, s', r, Taken(s, r), Taken(s', r));
    }
  }

  lemma RefreshKeepsInv(s: System, q: Id, snap: Option<Content>)
    requires Inv(s)
    ensures Inv(DoRefresh(s, q, snap))
  {
    var s' := DoRefresh(s, q, snap);
    forall r ensures Covered(s', r) {
      assert Covered(s, r);
      QueueKept(s, s', r, Taken(s, r), Taken(s', r));
    }
  }

  lemma NextKeepsInv(s: System, step: Step)
    requires Inv(s)
    ensures Inv(Next(s, step))
  {
    var s' := Next(s, step);
    match step
    case Call(op) => CallKeepsInv(s, op);
    case Append(e) => AppendKeepsInv(s, e);
    case Inject(e) => InjectKeepsInv(s, e);
    case ReadNew(n) => ReadNewKeepsInv(s, n);
    case ReadPending(ok) => ReadPendingKeepsInv(s, ok);
    case Dispatch(ok) => DispatchKeepsInv(s, ok);
    case Install => InstallKeepsInv(s);
    case Acknowledge(ok) => AcknowledgeKeepsInv(s, ok);
    case Refresh(r) => RefreshKeepsInv(s, r, Current(s.db, r));
    case RefreshInstall(r) => if r in s.refreshing { RefreshKeepsInv(s, r, s.refreshing[r]); }
    case RefreshFetch(q) =>
      forall r ensures Covered(s', r) {
        assert Covered(s, r);
        QueueKept(s, s', r, Taken(s, r), Taken(s', r));
      }
    case Restart =>
  }

  lemma {:induction false} ExecKeepsInv(s: System, steps: seq<Step>)
    requires Inv(s)
    ensures Inv(Exec(s, steps))
  {
    if steps != [] {
      var n := |steps| - 1;
      ExecKeepsInv(s, steps[..n]);
      NextKeepsInv(Exec(s, steps[..n]), steps[n]);
    }
  }

  lemma CoveredMeansPending(s: System, r: Id)
    requires Inv(s)
    ensures !InSync(s, r) ==> Pending(s, r, None) || r in s.unrepaired
  {
    assert Covered(s, r);
    QueueKept(s, s, r, Taken(s, r), None);
    if s.work.Fetched? && s.work.r == r { assert Waiting(s, s.work.i); }
  }

  /** After every run: a room whose cache entry is not what the database says
      has an event naming it owed, unread or unacknowledged, or is one of those
      left unrepaired. */
  lemma StaleImpliesPending(steps: seq<Step>, r: Id)
    ensures var s := Exec(START, steps); !InSync(s, r) ==> Pending(s, r, None) || r in s.unrepaired
  {
    var s := Exec(START, steps);
    ExecKeepsInv(START, steps);
    CoveredMeansPending(s, r);
  }

  /** Nothing owed, unread or unacknowledged. */
  predicate Drained(s: System) { s.owed == multiset{} && s.read == |s.stream| && s.pel == {} }

  /** So a drained stream means the cache is exactly what WarmCache would
      load now. */
  lemma DrainedMeansEqual(steps: seq<Step>)
    requires Drained(Exec(START, steps)) && Exec(START, steps).unrepaired == {}
    ensures Exec(START, steps).cache == CacheOf(Exec(START, steps).db)
  {
    var s := Exec(START, steps);
    forall r ensures InSync(s, r) { StaleImpliesPending(steps, r); }
    forall r ensures Entry(s.cache, r) == Entry(CacheOf(s.db), r) { assert InSync(s, r); }
    assert forall r :: r in s.cache <==> Entry(s.cache, r).Some?;
    assert forall r :: r in CacheOf(s.db) <==> Entry(CacheOf(s.db), r).Some?;
  }

  /** Steps that need no repair: calls that notify, and refreshes with nothing
      between fetch and install. */
  predicate Notifying(step: Step) {
    && (step.Call? ==> !step.op.OpSetTimezone? && !step.op.OpDeleteUser? && !step.op.OpDeleteDevice? && !step.op.OpDeleteSchedule?)
    && !step.RefreshInstall?
  }

  lemma LoudCall(s: System, op: Op)
    requires WellFormed(s) && Notifying(Call(op))
    ensures Next(s, Call(op)).unrepaired == s.unrepaired
  {
    assert SilentRooms(s.db, op) == {};
  }

  lemma QuietStep(s: System, step: Step)
    requires WellFormed(s) && !step.Call? && Notifying(step) && s.unrepaired == {}
    ensures Next(s, step).unrepaired == {}
  {
  }

  lemma {:induction false} NotifyingRunsNeedNoRepair(steps: seq<Step>)
    requires forall k :: 0 <= k < |steps| ==> Notifying(steps[k])
    ensures Exec(START, steps).unrepaired == {}
  {
    if steps != [] {
      var n := |steps| - 1;
      NotifyingRunsNeedNoRepair(steps[..n]);
      var s := Exec(START, steps[..n]);
      assert Notifying(steps[n]);
      if steps[n].Call? { LoudCall(s, steps[n].op); } else { QuietStep(s, steps[n]); }
    }
  }

  // ---------------------------------------------------------------------
  // Where the protocol does not keep up
  // ---------------------------------------------------------------------

  /** With nothing in flight, one of the four silent writes leaves the room
      out of date, and nothing to say so, exactly when it changes what the
      room's entry should say. */
  lemma SilentWriteExactly(s: System, op: Op, r: Id)
    requires Inv(s) && Drained(s) && InSync(s, r)
    requires r in SilentRooms(s.db, op) && Apply(s.db, op).reply.Done?
    ensures Drained(Next(s, Call(op)))
    ensures !InSync(Next(s, Call(op)), r) <==> Outdates(s.db, op, r)
  {
    SilentChangesExactly(s.db, op, r);
  }

  lemma {:induction false} ExecFirst(s: System, step: Step, steps: seq<Step>)
    requires WellFormed(s)
    ensures WellFormed(Next(s, step)) && Exec(s, [step] + steps) == Exec(Next(s, step), steps)
  {
    NextWellFormed(s, step);
    var all, n := [step] + steps, |steps|;
    if n == 0 {
      assert all[..0] == [];
    } else {
      ExecFirst(s, step, steps[..n - 1]);
      assert all[..n] == [step] + steps[..n - 1];
    }
  }

  /** One event's way through the stream, and what comes after. */
  function Reloading(rest: seq<Step>): seq<Step> { [Dispatch(true)] + ([Install] + ([Acknowledge(true)] + rest)) }
  function Handling(e: Event, rest: seq<Step>): seq<Step> { [Append(e)] + ([ReadNew(1)] + Reloading(rest)) }

  lemma ExecThree(s: System, a: Step, b: Step, c: Step, rest: seq<Step>)
    requires WellFormed(s)
    ensures WellFormed(Next(s, a)) && WellFormed(Next(Next(s, a), b)) && WellFormed(Next(Next(Next(s, a), b), c))
    ensures Exec(s, [a] + ([b] + ([c] + rest))) == Exec(Next(Next(Next(s, a), b), c), rest)
  {
    ExecFirst(s, a, [b] + ([c] + rest));
    ExecFirst(Next(s, a), b, [c] + rest);
    ExecFirst(Next(Next(s, a), b), c, rest);
  }

  lemma NextReload(s: System)
    requires WellFormed(s)
    ensures Next(s, Dispatch(true)) == DoDispatch(s, true) && WellFormed(DoDispatch(s, true))
    ensures Next(s, Install) == DoInstall(s) && WellFormed(DoInstall(s))
    ensures Next(s, Acknowledge(true)) == DoAcknowledge(s, true) && WellFormed(DoAcknowledge(s, true))
  {
    NextWellFormed(s, Dispatch(true));
    NextWellFormed(s, Install);
    NextWellFormed(s, Acknowledge(true));
  }

  lemma ReloadingRun(s: System, rest: seq<Step>) returns (s': System)
    requires WellFormed(s)
    ensures s' == DoAcknowledge(DoInstall(DoDispatch(s, true)), true) && WellFormed(s')
    ensures Exec(s, Reloading(rest)) == Exec(s', rest)
  {
    ExecThree(s, Dispatch(true), Install, Acknowledge(true), rest);
    NextReload(s);
    NextReload(DoDispatch(s, true));
    NextReload(DoInstall(DoDispatch(s, true)));
    s' := DoAcknowledge(DoInstall(DoDispatch(s, true)), true);
  }

  lemma HandlingRun(s: System, e: Event, rest: seq<Step>) returns (s2: System, s': System)
    requires WellFormed(s)
    ensures WellFormed(DoAppend(s, e)) && s2 == DoReadNew(DoAppend(s, e), 1) && WellFormed(s2)
    ensures s' == DoAcknowledge(DoInstall(DoDispatch(s2, true)), true) && WellFormed(s')
    ensures Exec(s, Handling(e, rest)) == Exec(s', rest)
  {
    ExecFirst(s, Append(e), [ReadNew(1)] + Reloading(rest));
    var s1 := Next(s, Append(e));
    ExecFirst(s1, ReadNew(1), Reloading(rest));
    s2 := Next(s1, ReadNew(1));
    s' := ReloadingRun(s2, rest);
  }

  /** The consumer is up and has nothing left to read or acknowledge. */
  predicate Quiet(s: System) {
    WellFormed(s) && s.live && s.batch == [] && s.work.Idle? && s.read == |s.stream| && s.pel == {}
  }

  /** The same but for the cache and the stream; no room is newly unrepaired. */
  predicate OnlyHandled(s: System, s': System, owed: multiset<Event>) {
    s'.db == s.db && s'.refreshing == s.refreshing && s'.unrepaired <= s.unrepaired && s'.owed == owed
  }

  /** The consumer, left alone, takes one owed event through the stream. */
  lemma OneEventHandled(s: System, e: Event, rest: seq<Step>) returns (s': System)
    requires Quiet(s) && e in s.owed && !Malformed(e)
    ensures Quiet(s') && OnlyHandled(s, s', s.owed - multiset{e})
    ensures Exec(s, Handling(e, rest)) == Exec(s', rest)
  {
    var n := |s.stream|;
    var s2;
    s2, s' := HandlingRun(s, e, rest);
    assert Range(n, 1) == [n];
    assert s2 == DoAppend(s, e).(read := n + 1, pel := {n}, batch := [n]);
    EntryHandled(s2, n);
  }

  lemma EntryHandled(s: System, n: nat)
    requires WellFormed(s) && s.live && s.work.Idle? && s.batch == [n] && s.pel == {n} && s.read == |s.stream| && n < s.read
    requires !Malformed(s.stream[n])
    ensures var s' := DoAcknowledge(DoInstall(DoDispatch(s, true)), true);
      OnlyHandled(s, s', s.owed) && s'.live && s'.batch == [] && s'.work.Idle? && s'.pel == {}
      && s'.stream == s.stream && s'.read == s.read
  {
    var s1 := DoDispatch(s, true);
    assert s.batch[1..] == [];
    assert s1.work.Acking? || s1.work.Fetched?;
    assert s.pel - {n} == {};
  }

  /** Every owed event of a list, one after the other. */
  function HandlingAll(events: seq<Event>, rest: seq<Step>): seq<Step> {
    if events == [] then rest else Handling(events[0], HandlingAll(events[1..], rest))
  }

  lemma {:induction false} AllEventsHandled(s: System, events: seq<Event>, rest: seq<Step>) returns (s': System)
    requires Quiet(s) && s.owed == multiset(events) && forall e :: e in events ==> !Malformed(e)
    ensures Quiet(s') && Drained(s') && OnlyHandled(s, s', multiset{})
    ensures Exec(s, HandlingAll(events, rest)) == Exec(s', rest)
    decreases |events|
  {
    if events == [] {
      s' := s;
    } else {
      assert events == [events[0]] + events[1..];
      assert events[0] in events && forall e :: e in events[1..] ==> e in events;
      s' := OneEventHandled(s, events[0], HandlingAll(events[1..], rest));
      s' := AllEventsHandled(s', events[1..], rest);
    }
  }

  /** No request sends an entry the consumer cannot route. */
  lemma SentRoutable(db: Db, op: Op)
    ensures forall e :: e in Apply(db, op).sent ==> !Malformed(e)
  {
  }

  /** Steps of the room's own refresh ticker, and restarts. */
  predicate OwnRefresh(step: Step, r: Id) {
    step.Restart? || ((step.Refresh? || step.RefreshFetch? || step.RefreshInstall?) && step.r == r)
  }

  lemma {:induction false} SnapshotKept(s: System, mid: seq<Step>, r: Id)
    requires WellFormed(s) && r in s.refreshing && forall k :: 0 <= k < |mid| ==> !OwnRefresh(mid[k], r)
    ensures r in Exec(s, mid).refreshing && Exec(s, mid).refreshing[r] == s.refreshing[r]
  {
    if mid != [] {
      var n := |mid| - 1;
      SnapshotKept(s, mid[..n], r);
      SnapshotStep(Exec(s, mid[..n]), mid[n], r);
    }
  }

  lemma SnapshotStep(s: System, step: Step, r: Id)
    requires WellFormed(s) && r in s.refreshing && !OwnRefresh(step, r)
    ensures r in Next(s, step).refreshing && Next(s, step).refreshing[r] == s.refreshing[r]
  {
  }

  lemma FetchKept(s: System, mid: seq<Step>, r: Id)
    requires WellFormed(s) && forall k :: 0 <= k < |mid| ==> !OwnRefresh(mid[k], r)
    ensures var before := Exec(s, [RefreshFetch(r)] + mid); r in before.refreshing && before.refreshing[r] == Current(s.db, r)
  {
    var first := Next(s, RefreshFetch(r));
    NextWellFormed(s, RefreshFetch(r));
    assert r in first.refreshing && first.refreshing[r] == Current(s.db, r);
    SnapshotKept(first, mid, r);
    ExecFirst(s, RefreshFetch(r), mid);
  }

  lemma InstallExactly(s: System, r: Id)
    requires WellFormed(s) && r in s.refreshing
    ensures var s' := Next(s, RefreshInstall(r));
      (InSync(s', r) <==> s.refreshing[r] == Current(s.db, r)) && (Drained(s) ==> Drained(s'))
  {
  }

  /** A refresh in two steps, with anything in between: the API's calls, the
      consumer's reads and reloads, other rooms' refreshes. The room is out of
      date after the install exactly when its entry should no longer say what it
      should have said at the fetch, whatever the consumer has put there since; and a drained stream stays
      drained, so nothing says so. */
  lemma SplitRefreshExactly(s: System, mid: seq<Step>, r: Id)
    requires WellFormed(s) && forall k :: 0 <= k < |mid| ==> !OwnRefresh(mid[k], r)
    ensures var before := Exec(s, [RefreshFetch(r)] + mid);
      var after := Next(before, RefreshInstall(r));
      (InSync(after, r) <==> Current(before.db, r) == Current(s.db, r)) && (Drained(before) ==> Drained(after))
  {
    FetchKept(s, mid, r);
    InstallExactly(Exec(s, [RefreshFetch(r)] + mid), r);
  }

  lemma NothingPending(s: System, r: Id)
    requires Inv(s) && Drained(s) && r !in s.unrepaired
    ensures InSync(s, r)
  {
    CoveredMeansPending(s, r);
  }

  /** The refresh's read, the request, and the consumer's work on its events. */
  function Race(db: Db, op: Op, r: Id): seq<Step> {
    [RefreshFetch(r)] + ([Call(op)] + HandlingAll(Apply(db, op).sent, []))
  }

  /** In particular a refresh that reads the rows before a request and installs
      them after the consumer has handled all of the request's events undoes
      the reload, for every request that changes what the room's entry should
      say: updates, deletions of the room, devices moved between two rooms. */
  lemma SplitRefreshUndoesReload(s: System, op: Op, r: Id)
    requires Inv(s) && Quiet(s) && s.owed == multiset{} && r !in s.unrepaired
    requires Current(Apply(s.db, op).db, r) != Current(s.db, r)
    ensures var before := Exec(s, Race(s.db, op, r));
      var after := Next(before, RefreshInstall(r));
      && Drained(before) && (r !in Outdated(s.db, op) ==> InSync(before, r))
      && Drained(after) && !InSync(after, r)
  {
    var before := RaceHandled(s, op, r);
    ExecKeepsInv(s, Race(s.db, op, r));
    if r !in Outdated(s.db, op) { NothingPending(before, r); }
    InstallExactly(before, r);
  }

  lemma RaceHandled(s: System, op: Op, r: Id) returns (s': System)
    requires Quiet(s) && s.owed == multiset{}
    ensures s' == Exec(s, Race(s.db, op, r)) && Quiet(s') && Drained(s') && s'.db == Apply(s.db, op).db
    ensures r in s'.refreshing && s'.refreshing[r] == Current(s.db, r)
    ensures forall q :: q in s'.unrepaired ==> q in s.unrepaired || q in Outdated(s.db, op)
  {
    var sent := Apply(s.db, op).sent;
    var s1 := Next(s, RefreshFetch(r));
    var s2 := Next(s1, Call(op));
    ExecFirst(s, RefreshFetch(r), [Call(op)] + HandlingAll(sent, []));
    ExecFirst(s1, Call(op), HandlingAll(sent, []));
    CalledQuiet(s1, op);
    SentRoutable(s.db, op);
    s' := AllEventsHandled(s2, sent, []);
    assert Exec(s', []) == s';
  }

  lemma CalledQuiet(s: System, op: Op)
    requires Quiet(s) && s.owed == multiset{}
    ensures var s' := Next(s, Call(op));
      && Quiet(s') && s'.db == Apply(s.db, op).db && s'.owed == multiset(Apply(s.db, op).sent) && s'.refreshing == s.refreshing
      && forall r :: r in s'.unrepaired ==> r in s.unrepaired || r in Outdated(s.db, op)
  {
    var e := Apply(s.db, op);
    assert multiset{} + multiset(e.sent) == multiset(e.sent);
  }

  const REGISTER := OpRegister("a@b")
  const CREATE := OpCreateRoom(0, "room")
  const TOKYO := OpSetTimezone(0, "Asia/Tokyo", {"Asia/Tokyo"})
  const WIDEN := OpUpdateRoom(1, 0, "room", Some(1.0), None)

  /** A user with a room, and everything handled. */
  function RoomSetUp(): seq<Step> {
    [ReadPending(true)] + ([Call(REGISTER)] + ([Call(CREATE)] + Handling(RoomCreated(1), [])))
  }

  function SetUpDb(): Db { Apply(Apply(EMPTY_DB, REGISTER).db, CREATE).db }

  /** The room is there, in sync and with nothing pending; a change of its
      owner's timezone is accepted, leaves nothing pending, and leaves the
      entry out of date. */
  predicate StaleByTimezone(s: System)
    requires WellFormed(s)
  {
    && Drained(s) && s.unrepaired == {} && 1 in s.db.rooms && InSync(s, 1) && Apply(s.db, TOKYO).reply.Done?
    && Drained(Next(s, Call(TOKYO))) && !InSync(Next(s, Call(TOKYO)), 1)
  }

  /** So it happens: a run of the system that leads there. */
  lemma SilentWriteHappens()
    ensures StaleByTimezone(Exec(START, RoomSetUp()))
  {
    var s := SetUpReached();
    TimezoneUnseen(s);
  }

  lemma TimezoneUnseen(s: System)
    requires Inv(s) && Drained(s) && s.unrepaired == {}
    requires s.db == SetUpDb()
    ensures StaleByTimezone(s)
  {
    SetUpTables();
    NothingPending(s, 1);
    SilentWriteExactly(s, TOKYO, 1);
  }

  lemma SetUpTables()
    ensures var e := Apply(Apply(EMPTY_DB, REGISTER).db, CREATE);
      && e.sent == [RoomCreated(1)] && 1 in e.db.rooms && 1 in SilentRooms(e.db, TOKYO)
      && Apply(e.db, TOKYO).reply.Done? && Outdates(e.db, TOKYO, 1)
    ensures Apply(EMPTY_DB, REGISTER).sent == []
    ensures SilentRooms(EMPTY_DB, REGISTER) == {}
    ensures SilentRooms(Apply(EMPTY_DB, REGISTER).db, CREATE) == {}
  {
    var d := Apply(EMPTY_DB, REGISTER).db;
    assert d.users == map[0 := UserRow("a@b", "UTC")] && d.rooms == map[] && d.next == 1;
    var e := CreateRoom(d, 0, "room");
    assert e.db.rooms[1].user == 0;
    assert TOKYO.tz in TOKYO.zones;
    assert "UTC" != "Asia/Tokyo" by { assert |"UTC"| == 3; }
  }

  /** The room is in sync with nothing pending. A refresh reads it, an accepted
      request changes it, the consumer handles the event and the room is in
      sync again; then the refresh installs what it read, and the room is out
      of date with nothing pending. */
  predicate UndoneByRefresh(s: System, op: Op, r: Id)
    requires WellFormed(s)
  {
    var before := Exec(s, Race(s.db, op, r));
    && Drained(s) && InSync(s, r) && Apply(s.db, op).reply.Done?
    && Drained(before) && InSync(before, r)
    && Drained(Next(before, RefreshInstall(r))) && !InSync(Next(before, RefreshInstall(r)), r)
  }

  /** That happens too. */
  lemma SplitRefreshHappens()
    ensures UndoneByRefresh(Exec(START, RoomSetUp()), WIDEN, 1)
  {
    var s := SetUpReached();
    WidenUndone(s);
  }

  lemma WidenUndone(s: System)
    requires Inv(s) && Quiet(s) && Drained(s) && s.unrepaired == {} && s.db == SetUpDb()
    ensures UndoneByRefresh(s, WIDEN, 1)
  {
    NothingPending(s, 1);
    WidenTables();
    SplitRefreshUndoesReload(s, WIDEN, 1);
  }

  lemma WidenTables()
    ensures Apply(SetUpDb(), WIDEN).reply.Done? && 1 !in SilentRooms(SetUpDb(), WIDEN)
    ensures Current(Apply(SetUpDb(), WIDEN).db, 1) != Current(SetUpDb(), 1)
  {
    SetUpTables();
    var db := SetUpDb();
    assert db.rooms == map[1 := RoomRow(0, "room", 0.5, 2.0)] && 0 in db.users;
    assert Apply(db, WIDEN).db.rooms[1].deadbandTemp == 1.0;
  }

  lemma SetUpCalled() returns (s: System)
    ensures Quiet(s) && s.owed == multiset{RoomCreated(1)} && s.unrepaired == {} && s.db == SetUpDb()
    ensures Exec(START, RoomSetUp()) == Exec(s, Handling(RoomCreated(1), []))
  {
    var rest := Handling(RoomCreated(1), []);
    ExecThree(START, ReadPending(true), Call(REGISTER), Call(CREATE), rest);
    ConsumerUp();
    s := TwoCalls(START.(live := true));
  }

  lemma SetUpHandled() returns (s: System)
    ensures Quiet(s) && Drained(s) && s.unrepaired == {} && s.db == SetUpDb() && s == Exec(START, RoomSetUp())
  {
    var called := SetUpCalled();
    s := OneEventHandled(called, RoomCreated(1), []);
    assert Exec(s, []) == s;
  }

  lemma SetUpReached() returns (s: System)
    ensures Inv(s) && Quiet(s) && Drained(s) && s.unrepaired == {} && s.db == SetUpDb() && s == Exec(START, RoomSetUp())
  {
    var steps := RoomSetUp();
    s := SetUpHandled();
    ExecKeepsInv(START, steps);
  }

  lemma ConsumerUp()
    ensures Next(START, ReadPending(true)) == START.(live := true)
  {
    assert Range(0, 0) == [];
  }

  lemma TwoCalls(s: System) returns (s': System)
    requires Quiet(s) && s.owed == multiset{} && s.db == EMPTY_DB && s.unrepaired == {}
    ensures WellFormed(Next(s, Call(REGISTER))) && s' == Next(Next(s, Call(REGISTER)), Call(CREATE))
    ensures Quiet(s') && s'.owed == multiset{RoomCreated(1)} && s'.unrepaired == {}
    ensures s'.db == SetUpDb()
  {
    SetUpTables();
    CalledQuiet(s, REGISTER);
    CalledQuiet(Next(s, Call(REGISTER)), CREATE);
    s' := Next(Next(s, Call(REGISTER)), Call(CREATE));
  }

  lemma RefreshOne(s: System, q: Id)
    requires WellFormed(s)
    ensures var s' := Next(s, Refresh(q));
      && s'.db == s.db && s'.work == s.work && InSync(s', q)
      && (forall r :: r != q ==> Entry(s'.cache, r) == Entry(s.cache, r) && (r in s'.unrepaired ==> r in s.unrepaired))
      && (!s.work.Fetched? ==> q !in s'.unrepaired)
  {
  }

  /** Refreshing every room that is cached or exists repairs the whole cache,
      whatever is pending, if the consumer has no rows in hand. */
  lemma {:induction false} RefreshRepairs(s: System, rooms: seq<Id>)
    requires WellFormed(s)
    ensures var s' := Exec(s, Refreshes(rooms));
      && s'.db == s.db && s'.work == s.work
      && (forall r :: r in rooms ==> InSync(s', r))
      && (forall r :: r !in rooms ==> Entry(s'.cache, r) == Entry(s.cache, r))
      && (!s.work.Fetched? ==> forall r :: r in rooms ==> r !in s'.unrepaired)
  {
    if rooms == [] {
      assert Refreshes(rooms) == [];
    } else {
      var n := |rooms| - 1;
      RefreshRepairs(s, rooms[..n]);
      RefreshOne(Exec(s, Refreshes(rooms[..n])), rooms[n]);
      assert Refreshes(rooms)[..n] == Refreshes(rooms[..n]);
      assert rooms == rooms[..n] + [rooms[n]];
    }
  }

  function Refreshes(rooms: seq<Id>): seq<Step> {
    Map(rooms, (r: Id) => Refresh(r))
  }
}
