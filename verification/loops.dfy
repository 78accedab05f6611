/** Whose loops run: the scheduler's rooms beside the protocol's steps. */
module Loops {
  import opened Base
  import opened Tables
  import opened Api
  import opened ApiIntegrity
  import opened ApiNotify
  import opened Appdb
  import opened Stream

  /** `active` are the keys of activeRooms. `strays` is not part of the program:
      rooms whose loops run on although the room is gone and no event that
      would stop them is to come. */
  datatype Host = Host(s: System, active: set<Id>, strays: set<Id>)

  const BOOT := Host(START, {}, {})

  /** room_created is about to start loops: its reload has gone through. */
  predicate Starts(s: System, r: Id)
    requires WellFormed(s)
  {
    s.work.Fetched? && s.work.r == r && s.stream[s.work.i] == RoomCreated(r)
  }

  function ActiveAfter(h: Host, step: Step): set<Id>
    requires WellFormed(h.s)
  {
    match step
    case Dispatch(_) =>
      (match NextEntry(h.s)
       case Some(RoomDeleted(r)) => h.active - {r}
       case _ => h.active)
    case Install => if h.s.work.Fetched? && Starts(h.s, h.s.work.r) then h.active + {h.s.work.r} else h.active
    case Restart => CacheOf(h.s.db).Keys
    case _ => h.active
  }

  /** The event is owed, or waits in an entry besides `except`. */
  predicate OnItsWay(s: System, e: Event, except: Option<nat>) {
    e in s.owed || exists i :: 0 <= i < |s.stream| && Waiting(s, i) && Some(i) != except && s.stream[i] == e
  }

  /** The two steps that leave loops of no room: starting them for a room that
      is gone and whose deletion has been handled, and deleting the owner, which
      sends nothing. */
  function Strayed(h: Host, step: Step): set<Id>
    requires WellFormed(h.s)
  {
    match step
    case Install =>
      if h.s.work.Fetched? && Starts(h.s, h.s.work.r) && h.s.work.r !in h.s.db.rooms && !OnItsWay(h.s, RoomDeleted(h.s.work.r), None)
      then {h.s.work.r} else {}
    case Call(OpDeleteUser(u)) => RoomsOf(h.s.db, u) * h.active
    case _ => {}
  }

  function Advance(h: Host, step: Step): Host
    requires WellFormed(h.s)
  {
    Host(Next(h.s, step), ActiveAfter(h, step), if step.Restart? then {} else h.strays + Strayed(h, step))
  }

  function Run(h: Host, steps: seq<Step>): Host
    requires WellFormed(h.s)
    decreases |steps|
  {
    if steps == [] then h
    else
      NextWellFormed(h.s, steps[0]);
      Run(Advance(h, steps[0]), steps[1..])
  }

  /** Beside the loops it is the protocol's run. */
  lemma {:induction false} RunIsExec(h: Host, steps: seq<Step>)
    requires WellFormed(h.s)
    ensures Run(h, steps).s == Exec(h.s, steps)
    decreases |steps|
  {
    if steps != [] {
      ExecFirst(h.s, steps[0], steps[1..]);
      assert steps == [steps[0]] + steps[1..];
      RunIsExec(Advance(h, steps[0]), steps[1..]);
    }
  }

  // ---------------------------------------------------------------------
  // Loops follow rooms
  // ---------------------------------------------------------------------

  /** The entry being acknowledged has had its effect. */
  function Spent(s: System): Option<nat> { if s.work.Acking? then Some(s.work.i) else None }

  ghost predicate Follows(h: Host, r: Id) {
    && (r in h.active && r !in h.s.db.rooms ==> OnItsWay(h.s, RoomDeleted(r), Spent(h.s)) || r in h.strays)
    && (r in h.s.db.rooms && r !in h.active ==> OnItsWay(h.s, RoomCreated(r), Spent(h.s)))
    && (r in h.strays ==> r in h.active && r !in h.s.db.rooms && r < h.s.db.next && !OnItsWay(h.s, RoomDeleted(r), None))
  }

  /** Announced rooms were created; deletions are never fetched for. */
  ghost predicate Announced(s: System) {
    && (forall r: Id :: RoomCreated(r) in s.owed ==> r < s.db.next)
    && (forall i :: 0 <= i < |s.stream| && s.stream[i].RoomCreated? ==> s.stream[i].room < s.db.next)
    && (s.work.Fetched? ==> s.work.i < |s.stream| && !s.stream[s.work.i].RoomDeleted?)
  }

  ghost predicate HostInv(h: Host) { Inv(h.s) && Announced(h.s) && forall r :: Follows(h, r) }

  /** Waiting entries of this event wait on, or it was owed and was appended. */
  lemma WayKept(s: System, s': System, e: Event)
    requires s.stream <= s'.stream
    requires e in s.owed ==>
      e in s'.owed || (|s'.stream| > |s.stream| && s'.stream[|s.stream|] == e && Waiting(s', |s.stream|) && Some(|s.stream|) != Spent(s'))
    requires forall i :: Waiting(s, i) && s.stream[i] == e && Some(i) != Spent(s) ==> Waiting(s', i) && Some(i) != Spent(s')
    ensures OnItsWay(s, e, Spent(s)) ==> OnItsWay(s', e, Spent(s'))
  {
    if e !in s.owed && OnItsWay(s, e, Spent(s)) {
      var i :| 0 <= i < |s.stream| && Waiting(s, i) && Some(i) != Spent(s) && s.stream[i] == e;
      assert s'.stream[i] == e;
    }
  }

  /** Nothing is on its way that was not. */
  lemma NoNewWay(s: System, s': System, e: Event)
    requires s.stream <= s'.stream && (e in s'.owed ==> e in s.owed)
    requires forall i :: |s.stream| <= i < |s'.stream| && s'.stream[i] == e ==> e in s.owed
    requires forall i :: 0 <= i < |s.stream| && Waiting(s', i) ==> Waiting(s, i)
    ensures OnItsWay(s', e, None) ==> OnItsWay(s, e, None)
  {
    if e !in s'.owed && OnItsWay(s', e, None) {
      var i :| 0 <= i < |s'.stream| && Waiting(s', i) && s'.stream[i] == e;
      if i < |s.stream| { assert s.stream[i] == e; }
    }
  }

  // Requests.

  lemma RoomGone(db: Db, op: Op, r: Id)
    requires IdsBelowNext(db) && r in db.rooms && r !in Apply(db, op).db.rooms
    ensures RoomDeleted(r) in Apply(db, op).sent || (op.OpDeleteUser? && r in RoomsOf(db, op.u))
  {
    if !ForRoom(op) && !op.OpDeleteUser? { OthersKeepRooms(db, op); }
  }

  lemma RoomNew(db: Db, op: Op, r: Id)
    requires r !in db.rooms && r in Apply(db, op).db.rooms
    ensures RoomCreated(r) in Apply(db, op).sent
  {
    if !ForRoom(op) && !op.OpDeleteUser? { OthersKeepRooms(db, op); }
  }

  lemma CreatedIsBelow(db: Db, op: Op, r: Id)
    requires RoomCreated(r) in Apply(db, op).sent
    ensures r < Apply(db, op).db.next
  {
  }

  lemma DeletedWasThere(db: Db, op: Op, r: Id)
    requires RoomDeleted(r) in Apply(db, op).sent
    ensures r in db.rooms
  {
    OnlyDeletionsAnnounced(db, op, r);
  }

  lemma CallAnnounced(h: Host, op: Op)
    requires HostInv(h)
    ensures Announced(Next(h.s, Call(op)))
  {
    KeepsIds(h.s.db, op);
    forall r: Id | RoomCreated(r) in Next(h.s, Call(op)).owed ensures r < Next(h.s, Call(op)).db.next {
      if RoomCreated(r) in Apply(h.s.db, op).sent { CreatedIsBelow(h.s.db, op, r); }
    }
  }

  lemma CallFollows(h: Host, op: Op, r: Id)
    requires HostInv(h)
    ensures Follows(Advance(h, Call(op)), r)
  {
    var s, h' := h.s, Advance(h, Call(op));
    assert Follows(h, r);
    WayKept(s, h'.s, RoomDeleted(r));
    WayKept(s, h'.s, RoomCreated(r));
    if r in s.db.rooms && r !in h'.s.db.rooms { RoomGone(s.db, op, r); }
    if r !in s.db.rooms && r in h'.s.db.rooms { RoomNew(s.db, op, r); }
    if r in h'.strays { StrayAfterCall(h, op, r); }
  }

  lemma StrayAfterCall(h: Host, op: Op, r: Id)
    requires HostInv(h) && r in Advance(h, Call(op)).strays
    ensures var s' := Next(h.s, Call(op)); r in h.active && r !in s'.db.rooms && r < s'.db.next && !OnItsWay(s', RoomDeleted(r), None)
  {
    var s, s' := h.s, Next(h.s, Call(op));
    assert Follows(h, r);
    KeepsIds(s.db, op);
    if r in s.db.rooms {
      assert op.OpDeleteUser? && op.u in s.db.users;
      assert Apply(s.db, op).sent == [];
      assert !OnItsWay(s, RoomDeleted(r), None);
    } else {
      DeletedStaysDeleted(s.db, op, r);
      if RoomDeleted(r) in Apply(s.db, op).sent { DeletedWasThere(s.db, op, r); }
    }
    NoNewWay(s, s', RoomDeleted(r));
  }

  // The consumer and the rest.

  lemma DispatchFollows(h: Host, ok: bool, r: Id)
    requires HostInv(h) && NextEntry(h.s).Some?
    ensures Follows(Advance(h, Dispatch(ok)), r)
  {
    var s, h' := h.s, Advance(h, Dispatch(ok));
    var i := s.batch[0];
    assert i in s.batch && s.stream[i] == NextEntry(s).value;
    DispatchShape(s, ok);
    assert Follows(h, r);
    if s.stream[i] == RoomDeleted(r) {
      assert OnItsWay(s, RoomDeleted(r), None);
    } else {
      WayKept(s, h'.s, RoomDeleted(r));
    }
    WayKept(s, h'.s, RoomCreated(r));
    NoNewWay(s, h'.s, RoomDeleted(r));
  }

  lemma InstallFollows(h: Host, r: Id)
    requires HostInv(h) && h.s.work.Fetched?
    ensures Follows(Advance(h, Install), r)
  {
    var s, h' := h.s, Advance(h, Install);
    assert Follows(h, r);
    WayKept(s, h'.s, RoomDeleted(r));
    NoNewWay(s, h'.s, RoomDeleted(r));
    if s.stream[s.work.i] != RoomCreated(r) { WayKept(s, h'.s, RoomCreated(r)); }
  }

  /** Steps that change neither tables nor loops. */
  predicate Neutral(step: Step) {
    !step.Call? && !step.Dispatch? && !step.Install? && !step.Restart?
  }

  lemma AppendFollows(h: Host, e: Event, r: Id)
    requires HostInv(h)
    ensures Follows(Advance(h, Append(e)), r)
  {
    var s, s' := h.s, DoAppend(h.s, e);
    assert Follows(h, r);
    WayKept(s, s', RoomDeleted(r));
    WayKept(s, s', RoomCreated(r));
    NoNewWay(s, s', RoomDeleted(r));
  }

  lemma InjectFollows(h: Host, e: Event, r: Id)
    requires HostInv(h)
    ensures Follows(Advance(h, Inject(e)), r)
  {
    var s, s' := h.s, DoInject(h.s, e);
    assert Follows(h, r);
    WayKept(s, s', RoomDeleted(r));
    WayKept(s, s', RoomCreated(r));
    NoNewWay(s, s', RoomDeleted(r));
  }

  lemma ReadFollows(h: Host, n: nat, r: Id)
    requires HostInv(h)
    ensures Follows(Advance(h, ReadNew(n)), r)
  {
    var s, s' := h.s, DoReadNew(h.s, n);
    assert Follows(h, r);
    forall i | s.read <= i < s.read + n ensures i in Range(s.read, n) { assert Range(s.read, n)[i - s.read] == i; }
    WayKept(s, s', RoomDeleted(r));
    WayKept(s, s', RoomCreated(r));
    NoNewWay(s, s', RoomDeleted(r));
  }

  lemma QuietFollows(h: Host, step: Step, r: Id)
    requires HostInv(h) && Neutral(step) && !step.Append? && !step.Inject? && !step.ReadNew?
    ensures Follows(Advance(h, step), r)
  {
    var s, s' := h.s, Next(h.s, step);
    assert Follows(h, r);
    assert s'.stream == s.stream && s'.owed == s.owed && s'.read == s.read && s'.db == s.db;
    WayKept(s, s', RoomDeleted(r));
    WayKept(s, s', RoomCreated(r));
    NoNewWay(s, s', RoomDeleted(r));
  }

  lemma NeutralFollows(h: Host, step: Step, r: Id)
    requires HostInv(h) && Neutral(step)
    ensures Follows(Advance(h, step), r)
  {
    match step
    case Append(e) => AppendFollows(h, e, r);
    case Inject(e) => InjectFollows(h, e, r);
    case ReadNew(n) => ReadFollows(h, n, r);
    case _ => QuietFollows(h, step, r);
  }

  lemma RestartFollows(h: Host, r: Id)
    requires HostInv(h)
    ensures Follows(Advance(h, Restart), r)
  {
  }

  lemma DispatchAnnounced(h: Host, ok: bool)
    requires HostInv(h)
    ensures Announced(DoDispatch(h.s, ok))
  {
    if NextEntry(h.s).Some? {
      var i := h.s.batch[0];
      assert i in h.s.batch && h.s.stream[i] == NextEntry(h.s).value;
      DispatchShape(h.s, ok);
    }
  }

  lemma AppendAnnounced(h: Host, step: Step)
    requires HostInv(h) && (step.Append? || step.Inject?)
    ensures Announced(Next(h.s, step))
  {
  }

  lemma QuietAnnounced(h: Host, step: Step)
    requires HostInv(h) && !step.Call? && !step.Dispatch? && !step.Append? && !step.Inject?
    ensures Announced(Next(h.s, step))
  {
    var s, s' := h.s, Next(h.s, step);
    assert s'.stream == s.stream && s'.owed == s.owed && s'.db == s.db;
  }

  lemma StepAnnounced(h: Host, step: Step)
    requires HostInv(h)
    ensures Announced(Next(h.s, step))
  {
    match step
    case Call(op) => CallAnnounced(h, op);
    case Dispatch(ok) => DispatchAnnounced(h, ok);
    case Append(_) => AppendAnnounced(h, step);
    case Inject(_) => AppendAnnounced(h, step);
    case _ => QuietAnnounced(h, step);
  }

  lemma AdvanceKeeps(h: Host, step: Step)
    requires HostInv(h)
    ensures HostInv(Advance(h, step))
  {
    NextKeepsInv(h.s, step);
    StepAnnounced(h, step);
    forall r ensures Follows(Advance(h, step), r) {
      assert Follows(h, r);
      if step.Call? { CallFollows(h, step.op, r); }
      else if step.Restart? { RestartFollows(h, r); }
      else if Neutral(step) { NeutralFollows(h, step, r); }
      else if step.Dispatch? && NextEntry(h.s).Some? { DispatchFollows(h, step.ok, r); }
      else if step.Install? && h.s.work.Fetched? { InstallFollows(h, r); }
    }
  }

  lemma {:induction false} RunKeeps(h: Host, steps: seq<Step>)
    requires HostInv(h)
    ensures HostInv(Run(h, steps))
    decreases |steps|
  {
    if steps != [] {
      AdvanceKeeps(h, steps[0]);
      RunKeeps(Advance(h, steps[0]), steps[1..]);
    }
  }

  /** After every run: loops of a room that is gone have a room_deleted still to
      come, or are stray; a room without loops has its room_created still to
      come. */
  lemma LoopsFollowRooms(steps: seq<Step>, r: Id)
    ensures var h := Run(BOOT, steps);
      && (r in h.active && r !in h.s.db.rooms ==> OnItsWay(h.s, RoomDeleted(r), None) || r in h.strays)
      && (r in h.s.db.rooms && r !in h.active ==> OnItsWay(h.s, RoomCreated(r), None))
  {
    RunKeeps(BOOT, steps);
    var h := Run(BOOT, steps);
    assert Follows(h, r);
  }

  /** With nothing pending, the rooms with loops are exactly the existing ones
      if and only if no loops went astray since the process started. */
  lemma DrainedLoopsExactly(steps: seq<Step>)
    requires Drained(Run(BOOT, steps).s)
    ensures Run(BOOT, steps).active == Run(BOOT, steps).s.db.rooms.Keys <==> Run(BOOT, steps).strays == {}
  {
    RunKeeps(BOOT, steps);
    var h := Run(BOOT, steps);
    forall r ensures r in h.active <==> r in h.s.db.rooms || r in h.strays { assert Follows(h, r); }
    forall r | r in h.strays ensures r !in h.s.db.rooms { assert Follows(h, r); }
  }

  /** Nothing but a restart ever stops stray loops. */
  lemma {:induction false} StraysStay(h: Host, steps: seq<Step>, r: Id)
    requires HostInv(h) && r in h.strays && forall k :: 0 <= k < |steps| ==> !steps[k].Restart?
    ensures r in Run(h, steps).active && r !in Run(h, steps).s.db.rooms
    decreases |steps|
  {
    assert Follows(h, r);
    if steps != [] {
      AdvanceKeeps(h, steps[0]);
      assert !steps[0].Restart?;
      StraysStay(Advance(h, steps[0]), steps[1..], r);
    }
  }

  // ---------------------------------------------------------------------
  // A run with stray loops
  // ---------------------------------------------------------------------

  const DROP := OpDeleteRoom(1, 0)

  /** A room is created and the consumer reads the event while the database
      does not answer; the room is deleted and that event handled. */
  function FailedStart(rest: seq<Step>): seq<Step> {
    [ReadPending(true)] + ([Call(REGISTER)] + ([Call(CREATE)] + ([Append(RoomCreated(1))] + ([ReadNew(1)] + ([Dispatch(false)]
      + ([Call(DROP)] + Handling(RoomDeleted(1), rest)))))))
  }

  /** The process starts again and the first event is delivered again. */
  function Redelivery(): seq<Step> { [Restart] + ([ReadPending(true)] + Reloading([])) }

  lemma RunFirst(h: Host, step: Step, rest: seq<Step>)
    requires WellFormed(h.s)
    ensures WellFormed(Advance(h, step).s) && Run(h, [step] + rest) == Run(Advance(h, step), rest)
  {
    NextWellFormed(h.s, step);
    assert ([step] + rest)[1..] == rest;
  }

  lemma RunThree(h: Host, x: Step, y: Step, z: Step, rest: seq<Step>) returns (h': Host)
    requires WellFormed(h.s)
    ensures WellFormed(Advance(h, x).s) && WellFormed(Advance(Advance(h, x), y).s)
    ensures h' == Advance(Advance(Advance(h, x), y), z) && WellFormed(h'.s)
    ensures Run(h, [x] + ([y] + ([z] + rest))) == Run(h', rest)
  {
    RunFirst(h, x, [y] + ([z] + rest));
    RunFirst(Advance(h, x), y, [z] + rest);
    RunFirst(Advance(Advance(h, x), y), z, rest);
    h' := Advance(Advance(Advance(h, x), y), z);
  }

  function Gone(): Db { Apply(SetUpDb(), DROP).db }

  lemma DropTables()
    ensures Apply(SetUpDb(), DROP) == Effect(Gone(), [RoomDeleted(1)], Done(1)) && SilentRooms(SetUpDb(), DROP) == {}
    ensures Gone().rooms == map[]
  {
    SetUpTables();
    assert SetUpDb().rooms == map[1 := RoomRow(0, "room", 0.5, 2.0)];
  }

  // The states along the way.

  function Entries(): seq<Event> { [RoomCreated(1), RoomDeleted(1)] }

  function Created(d: Db): System { START.(live := true, db := d, owed := multiset{RoomCreated(1)}) }
  function Unanswered(d: Db): System { START.(live := true, db := d, stream := [RoomCreated(1)], read := 1, pel := {0}) }
  function Dropped(d: Db): System { Unanswered(d).(owed := multiset{RoomDeleted(1)}) }
  function Stopping(d: Db): System {
    START.(live := true, db := d, stream := Entries(), read := 2, pel := {0, 1}, work := Acking(1))
  }
  function Stopped(d: Db): System { Stopping(d).(pel := {0}, work := Idle) }
  function Again(d: Db): System { Stopped(d).(live := false, work := Fetched(0, 1, None)) }

  lemma ToCreated(rest: seq<Step>)
    ensures Run(BOOT, [ReadPending(true)] + ([Call(REGISTER)] + ([Call(CREATE)] + rest))) == Run(Host(Created(SetUpDb()), {}, {}), rest)
  {
    var h := RunThree(BOOT, ReadPending(true), Call(REGISTER), Call(CREATE), rest);
    ConsumerUp();
    SetUpTables();
    assert h.s == Created(SetUpDb()) && h.active == {} && h.strays == {};
  }

  lemma ToUnanswered(d: Db, rest: seq<Step>)
    ensures WellFormed(Created(d))
    ensures Run(Host(Created(d), {}, {}), [Append(RoomCreated(1))] + ([ReadNew(1)] + ([Dispatch(false)] + rest)))
         == Run(Host(Unanswered(d), {}, {}), rest)
  {
    var h := RunThree(Host(Created(d), {}, {}), Append(RoomCreated(1)), ReadNew(1), Dispatch(false), rest);
    assert Range(0, 1) == [0];
    assert h.s == Unanswered(d);
  }

  lemma ToDropped(rest: seq<Step>)
    ensures WellFormed(Unanswered(SetUpDb())) && WellFormed(Dropped(Gone()))
    ensures Run(Host(Unanswered(SetUpDb()), {}, {}), [Call(DROP)] + rest) == Run(Host(Dropped(Gone()), {}, {}), rest)
  {
    RunFirst(Host(Unanswered(SetUpDb()), {}, {}), Call(DROP), rest);
    DropTables();
    assert Advance(Host(Unanswered(SetUpDb()), {}, {}), Call(DROP)).s == Dropped(Gone());
  }

  lemma ToStopping(d: Db, rest: seq<Step>)
    ensures WellFormed(Dropped(d)) && WellFormed(Stopping(d))
    ensures Run(Host(Dropped(d), {}, {}), [Append(RoomDeleted(1))] + ([ReadNew(1)] + ([Dispatch(true)] + rest)))
         == Run(Host(Stopping(d), {}, {}), rest)
  {
    var h := RunThree(Host(Dropped(d), {}, {}), Append(RoomDeleted(1)), ReadNew(1), Dispatch(true), rest);
    assert Range(1, 1) == [1] && [RoomCreated(1)] + [RoomDeleted(1)] == Entries();
    assert h.s == Stopping(d) && h.active == {} && h.strays == {};
  }

  lemma ToStopped(d: Db, rest: seq<Step>)
    ensures WellFormed(Stopping(d)) && WellFormed(Stopped(d))
    ensures Run(Host(Stopping(d), {}, {}), [Install] + ([Acknowledge(true)] + rest)) == Run(Host(Stopped(d), {}, {}), rest)
  {
    var h := Host(Stopping(d), {}, {});
    RunFirst(h, Install, [Acknowledge(true)] + rest);
    RunFirst(Advance(h, Install), Acknowledge(true), rest);
    assert {0, 1} - {1} == {0};
  }

  lemma ToAgain(d: Db, rest: seq<Step>)
    requires d.rooms == map[]
    ensures WellFormed(Stopped(d)) && WellFormed(Again(d))
    ensures Run(Host(Stopped(d), {}, {}), [Restart] + ([ReadPending(true)] + ([Dispatch(true)] + rest))) == Run(Host(Again(d), {}, {}), rest)
  {
    assert CacheOf(d) == map[];
    var h := RunThree(Host(Stopped(d), {}, {}), Restart, ReadPending(true), Dispatch(true), rest);
    assert Range(0, 2) == [0, 1] && PendingList({0}, 2) == [0];
    assert h.s == Again(d) && h.active == {} && h.strays == {};
  }

  lemma LoopsStarted(d: Db)
    requires d.rooms == map[]
    ensures WellFormed(Again(d))
    ensures var h := Run(Host(Again(d), {}, {}), [Install] + ([Acknowledge(true)] + [])); Drained(h.s) && h.s.db == d && h.active == {1}
  {
    var h := Host(Again(d), {}, {});
    RunFirst(h, Install, [Acknowledge(true)] + []);
    RunFirst(Advance(h, Install), Acknowledge(true), []);
    assert {0} - {0} == {};
  }

  /** So it happens: nothing is pending, there is no room, and loops run for
      one. */
  lemma StrayLoopsHappen()
    ensures var h := Run(BOOT, FailedStart(Redelivery())); Drained(h.s) && h.s.db.rooms == map[] && h.active == {1}
  {
    var again := Redelivery();
    var stop := Handling(RoomDeleted(1), again);
    var drop := [Call(DROP)] + stop;
    ToCreated([Append(RoomCreated(1))] + ([ReadNew(1)] + ([Dispatch(false)] + drop)));
    ToUnanswered(SetUpDb(), drop);
    ToDropped(stop);
    DropTables();
    StrayFrom(Gone());
  }

  lemma StrayFrom(d: Db)
    requires d.rooms == map[]
    ensures WellFormed(Dropped(d))
    ensures var h := Run(Host(Dropped(d), {}, {}), Handling(RoomDeleted(1), Redelivery())); Drained(h.s) && h.s.db == d && h.active == {1}
  {
    var again := Redelivery();
    ToStopping(d, [Install] + ([Acknowledge(true)] + again));
    ToStopped(d, again);
    ToAgain(d, [Install] + ([Acknowledge(true)] + []));
    LoopsStarted(d);
  }
}
