/** Ticks, telemetry and reloads of one live room, interleaved step by step:
    which runtime state survives the replacement of cache entries. */
module Runtime {
  import opened Base
  import opened Tables
  import opened Cache
  import opened Control
  import opened Ingestion

  /** A goroutine; it may hold a pointer to an entry across several steps. */
  type Actor = nat

  datatype Step =
    | Grab(a: Actor)
    | Readings(a: Actor, samples: seq<Sample>, ts: int)
    | State(a: Actor, t: ActuatorType, on: bool)
    | Last(a: Actor, p: PeriodCache)
    | Look(a: Actor)
    | Copy(a: Actor, c: RoomConfig)
    | Install(a: Actor)

  /** The room as if there were one readings map and one state map. Entries are
      numbered in the order they were built; each has a LastActivePeriod field
      of its own, in `last`. `found` holds the entries reloads have looked up,
      `built` those they have filled but not installed. */
  datatype Room = Room(
    readings: map<Measure, seq<Reading>>, states: map<ActuatorType, bool>,
    last: seq<Option<PeriodCache>>, current: nat, held: map<Actor, nat>, found: map<Actor, nat>, built: map<Actor, nat>)

  predicate Ok(s: Room) {
    && s.current < |s.last|
    && (forall a :: a in s.held ==> s.held[a] < |s.last|)
    && (forall a :: a in s.found ==> s.found[a] < |s.last|)
    && (forall a :: a in s.built ==> s.built[a] < |s.last|)
  }

  function LastOf(s: Room, e: nat): Option<PeriodCache> { if e < |s.last| then s.last[e] else None }

  function Next(s: Room, step: Step, stale: int): Room {
    match step
    case Grab(a) => s.(held := s.held[a := s.current])
    case Readings(a, samples, ts) => if a in s.held then s.(readings := Ingest(s.readings, samples, ts, stale)) else s
    case State(a, t, on) => if a in s.held then s.(states := s.states[t := on]) else s
    case Last(a, p) => if a in s.held && s.held[a] < |s.last| then s.(last := s.last[s.held[a] := Some(p)]) else s
    case Look(a) => s.(found := s.found[a := s.current])
    case Copy(a, _) =>
      if a in s.found then
        s.(last := s.last + [LastOf(s, s.found[a])], found := s.found - {a}, built := s.built[a := |s.last|])
      else s
    case Install(a) => if a in s.built then s.(current := s.built[a], built := s.built - {a}) else s
  }

  function Exec(s: Room, steps: seq<Step>, stale: int): Room {
    if steps == [] then s else Next(Exec(s, steps[..|steps| - 1], stale), steps[|steps| - 1], stale)
  }

  /** The two halves of a copy: the new entry, and whose it is. */
  function Grown(s: Room, x: Option<PeriodCache>): Room { s.(last := s.last + [x]) }

  function Handed(s: Room, a: Actor): Room
    requires s.last != []
  {
    s.(found := s.found - {a}, built := s.built[a := |s.last| - 1])
  }

  lemma CopyIs(s: Room, a: Actor, c: RoomConfig, stale: int)
    requires a in s.found
    ensures Next(s, Copy(a, c), stale) == Handed(Grown(s, LastOf(s, s.found[a])), a)
  {
  }

  // ---------------------------------------------------------------------
  // The heap
  // ---------------------------------------------------------------------

  /** The goroutines' local variables around one room of the store. */
  class Actors {
    const store: Store
    const room: Id
    const stale: int
    const readings: ReadingMap
    const states: StateMap
    var held: map<Actor, RoomCache>
    var found: map<Actor, RoomCache>
    var built: map<Actor, RoomCache>
    ghost var entries: seq<RoomCache>
    ghost var model: Room

    /** The pointers are those the numbers stand for. */
    static ghost predicate Points(pointers: map<Actor, RoomCache>, numbers: map<Actor, nat>, entries: seq<RoomCache>) {
      pointers.Keys == numbers.Keys
      && forall a :: a in pointers ==> numbers[a] < |entries| && pointers[a] == entries[numbers[a]]
    }

    static lemma PointsKept(pointers: map<Actor, RoomCache>, numbers: map<Actor, nat>, entries: seq<RoomCache>, e: RoomCache)
      requires Points(pointers, numbers, entries)
      ensures Points(pointers, numbers, entries + [e])
    {
    }

    static lemma PointsMoved(
      found: map<Actor, RoomCache>, built: map<Actor, RoomCache>, m: Room, entries: seq<RoomCache>, a: Actor)
      requires Points(found, m.found, entries) && Points(built, m.built, entries) && |entries| > 0
      ensures Points(found - {a}, m.found - {a}, entries)
      ensures Points(built[a := entries[|entries| - 1]], m.built[a := |entries| - 1], entries)
    {
    }

    static lemma DistinctAdded(entries: seq<RoomCache>, e: RoomCache)
      requires Distinct(entries) && e !in entries
      ensures Distinct(entries + [e])
    {
    }

    /** Every entry ever built for the room holds the same two maps. */
    ghost predicate Shared()
      reads this`entries, entries
    {
      forall e :: e in entries ==> e.readings == readings && e.states == states
    }

    /** The entries, their last periods, and which of them is installed. */
    ghost predicate History(last: seq<Option<PeriodCache>>, current: nat)
      reads this`entries, store, entries
    {
      && Distinct(entries) && Shared() && |entries| == |last| && current < |entries|
      && room in store.rooms && store.rooms[room] == entries[current]
      && (forall i :: 0 <= i < |entries| ==> entries[i].lastPeriod == last[i])
    }

    ghost predicate Valid()
      reads this, store, readings, states, entries
    {
      && History(model.last, model.current)
      && readings.m == model.readings && states.m == model.states
      && Points(held, model.held, entries) && Points(found, model.found, entries) && Points(built, model.built, entries)
    }

    constructor (st: Store, r: Id, threshold: int)
      requires r in st.rooms
      ensures Valid() && store == st && room == r && stale == threshold
      ensures entries == [st.rooms[r]] && readings == st.rooms[r].readings && states == st.rooms[r].states
      ensures model == Room(readings.m, states.m, [st.rooms[r].lastPeriod], 0, map[], map[], map[])
    {
      store, room, stale := st, r, threshold;
      readings, states := st.rooms[r].readings, st.rooms[r].states;
      held, found, built := map[], map[], map[];
      entries := [st.rooms[r]];
      model := Room(st.rooms[r].readings.m, st.rooms[r].states.m, [st.rooms[r].lastPeriod], 0, map[], map[], map[]);
    }

    method GrabEntry(a: Actor)
      requires Valid()
      modifies this`held, this`model
      ensures Valid() && model == Next(old(model), Grab(a), stale)
    {
      held := held[a := store.rooms[room]];
      model := Next(model, Grab(a), stale);
    }

    /** Process, through whatever entry the ingestor holds. */
    method AppendThrough(a: Actor, samples: seq<Sample>, ts: int)
      requires Valid()
      modifies readings, this`model
      ensures Valid() && model == Next(old(model), Readings(a, samples, ts), stale)
    {
      model := Next(model, Readings(a, samples, ts), stale);
      if a in held {
        assert held[a] in entries;
        AppendReadings(held[a].readings, samples, ts, stale);
      }
    }

    /** A tick recording one published command. */
    method RecordThrough(a: Actor, t: ActuatorType, on: bool)
      requires Valid()
      modifies states, this`model
      ensures Valid() && model == Next(old(model), State(a, t, on), stale)
    {
      model := Next(model, State(a, t, on), stale);
      if a in held {
        assert held[a] in entries;
        held[a].states.m := held[a].states.m[t := on];
      }
    }

    /** A tick setting LastActivePeriod. */
    method SetLastThrough(a: Actor, p: PeriodCache)
      requires Valid()
      modifies entries, this`model
      ensures Valid() && model == Next(old(model), Last(a, p), stale)
    {
      if a in held {
        assert held[a] in entries;
        held[a].lastPeriod := Some(p);
      }
      model := Next(model, Last(a, p), stale);
    }

    /** ReloadRoom looks up the entry it is going to replace. */
    method LookUp(a: Actor)
      requires Valid()
      modifies this`found, this`model
      ensures Valid() && model == Next(old(model), Look(a), stale)
    {
      found := found[a := store.rooms[room]];
      model := Next(model, Look(a), stale);
    }

    /** The new entry takes over the runtime references of the one found. */
    method Inherit(a: Actor, c: RoomConfig) returns (rc: RoomCache)
      requires Valid() && a in found
      ensures Valid() && fresh(rc) && rc.config == c
      ensures rc.readings == readings && rc.states == states && rc.lastPeriod == LastOf(model, model.found[a])
    {
      var existing := found[a];
      assert existing in entries;
      rc := new RoomCache(c);
      rc.states := existing.states;
      rc.readings := existing.readings;
      rc.lastPeriod := existing.lastPeriod;
    }

    /** A new entry with the room's maps joins those ever built. */
    ghost method Register(rc: RoomCache)
      requires Valid() && rc !in entries && rc.readings == readings && rc.states == states
      modifies this`entries, this`model
      ensures Valid() && entries == old(entries) + [rc]
      ensures model == Grown(old(model), rc.lastPeriod)
    {
      PointsKept(held, model.held, entries, rc);
      PointsKept(found, model.found, entries, rc);
      PointsKept(built, model.built, entries, rc);
      DistinctAdded(entries, rc);
      entries := entries + [rc];
      model := Grown(model, rc.lastPeriod);
    }

    /** The reload now holds the entry it filled, the last one built. */
    method HandOver(a: Actor, rc: RoomCache)
      requires Valid() && a in found && |entries| > 0 && entries[|entries| - 1] == rc
      modifies this`found, this`built, this`model
      ensures Valid() && entries == old(entries)
      ensures model == Handed(old(model), a)
    {
      PointsMoved(found, built, model, entries, a);
      found, built := found - {a}, built[a := rc];
      model := Handed(model, a);
    }

    /** The copy of the runtime fields, under the found entry's lock. */
    method CopyRuntime(a: Actor, c: RoomConfig) returns (rc: RoomCache)
      requires Valid() && a in found
      modifies this`found, this`built, this`entries, this`model
      ensures Valid() && model == Next(old(model), Copy(a, c), stale)
      ensures fresh(rc) && entries == old(entries) + [rc]
    {
      ghost var before := model;
      rc := Inherit(a, c);
      Register(rc);
      HandOver(a, rc);
      CopyIs(before, a, c, stale);
    }

    /** The end of ReloadRoom: AddRoom. */
    method InstallEntry(a: Actor)
      requires Valid()
      modifies store`rooms, this`built, this`model
      ensures Valid() && model == Next(old(model), Install(a), stale)
    {
      if a in built {
        store.AddRoom(room, built[a]);
        built := built - {a};
      }
      model := Next(model, Install(a), stale);
    }

    method Perform(step: Step)
      requires Valid()
      modifies this, store`rooms, readings, states, entries
      ensures Valid() && model == Next(old(model), step, stale)
      ensures forall e :: e in entries ==> e in old(entries) || fresh(e)
    {
      match step
      case Grab(a) => GrabEntry(a);
      case Readings(a, samples, ts) => AppendThrough(a, samples, ts);
      case State(a, t, on) => RecordThrough(a, t, on);
      case Last(a, p) => SetLastThrough(a, p);
      case Look(a) => LookUp(a);
      case Copy(a, c) =>
        if a in found {
          var _ := CopyRuntime(a, c);
        } else {
          model := Next(model, step, stale);
        }
      case Install(a) => InstallEntry(a);
    }

    /** Any interleaving: the store's entry ends up with the readings and the
        states of one shared room. */
    method Interleave(steps: seq<Step>)
      requires Valid()
      modifies this, store`rooms, readings, states, set e | e in entries
      ensures Valid() && room in store.rooms
      ensures store.rooms[room].readings == readings && readings.m == Exec(old(model), steps, stale).readings
      ensures store.rooms[room].states == states && states.m == Exec(old(model), steps, stale).states
      ensures store.rooms[room].lastPeriod == CurrentLast(Exec(old(model), steps, stale))
    {
      for i := 0 to |steps|
        invariant Valid() && model == Exec(old(model), steps[..i], stale)
        invariant forall e :: e in entries ==> e in old(entries) || fresh(e)
      {
        assert steps[..i + 1][..i] == steps[..i];
        Perform(steps[i]);
      }
      assert steps[..|steps|] == steps;
      assert store.rooms[room] in entries;
    }
  }

  // ---------------------------------------------------------------------
  // Readings and states are never lost
  // ---------------------------------------------------------------------

  predicate IsReload(step: Step) { step.Look? || step.Copy? || step.Install? }
  function NoReload(): Step -> bool { (step: Step) => !IsReload(step) }

  predicate Alike(a: Room, b: Room) {
    a.readings == b.readings && a.states == b.states && a.held.Keys == b.held.Keys
  }

  lemma StepAlike(a: Room, b: Room, step: Step, stale: int)
    requires Alike(a, b)
    ensures if IsReload(step) then Alike(Next(a, step, stale), b) else Alike(Next(a, step, stale), Next(b, step, stale))
  {
  }

  /** A run and the same run without its reloads leave the same readings and
      states. */
  lemma {:induction false} ReloadsInvisible(s: Room, steps: seq<Step>, stale: int)
    ensures Alike(Exec(s, steps, stale), Exec(s, Filter(steps, NoReload()), stale))
  {
    if steps != [] {
      var n := |steps| - 1;
      ReloadsInvisible(s, steps[..n], stale);
      assert steps == steps[..n] + [steps[n]];
      FilterConcat(steps[..n], [steps[n]], NoReload());
      var kept := Filter(steps[..n], NoReload());
      StepAlike(Exec(s, steps[..n], stale), Exec(s, kept, stale), steps[n], stale);
      if IsReload(steps[n]) {
        assert Filter(steps, NoReload()) == kept;
      } else {
        assert Filter(steps, NoReload()) == kept + [steps[n]];
        assert (kept + [steps[n]])[..|kept|] == kept;
      }
    }
  }

  /** The readings of measure `k` a step adds. */
  function Added(s: Room, step: Step, k: Measure): seq<Reading> {
    if step.Readings? && step.a in s.held then Map(Filter(step.samples, OfMeasure(k)), ToReading(step.ts)) else []
  }

  /** Every reading of measure `k` accepted during the run, in order. */
  function Accepted(s: Room, steps: seq<Step>, stale: int, k: Measure): seq<Reading> {
    if steps == [] then []
    else
      var n := |steps| - 1;
      Accepted(s, steps[..n], stale, k) + Added(Exec(s, steps[..n], stale), steps[n], k)
  }

  lemma StepBuffers(s: Room, step: Step, stale: int, k: Measure, history: seq<Reading>)
    requires ReadingsIn(s.readings, k) == Buffer(history, stale)
    ensures ReadingsIn(Next(s, step, stale).readings, k) == Buffer(history + Added(s, step, k), stale)
  {
    if step.Readings? && step.a in s.held {
      IngestBuffers(s.readings, history, step.samples, step.ts, stale, k);
    } else {
      assert history + [] == history;
    }
  }

  lemma StepBuffersAfter(s: Room, step: Step, stale: int, k: Measure, history: seq<Reading>, so: seq<Reading>)
    requires ReadingsIn(s.readings, k) == Buffer(history + so, stale)
    ensures ReadingsIn(Next(s, step, stale).readings, k) == Buffer(history + (so + Added(s, step, k)), stale)
  {
    StepBuffers(s, step, stale, k, history + so);
    assert history + (so + Added(s, step, k)) == history + so + Added(s, step, k);
  }

  /** So the buffer of a measure is always the buffer of every reading ever
      accepted, whichever entry it was written through. */
  lemma {:induction false} NoReadingLost(s: Room, steps: seq<Step>, stale: int, k: Measure, history: seq<Reading>)
    requires ReadingsIn(s.readings, k) == Buffer(history, stale)
    ensures ReadingsIn(Exec(s, steps, stale).readings, k) == Buffer(history + Accepted(s, steps, stale, k), stale)
  {
    if steps == [] {
      assert history + [] == history;
    } else {
      var n := |steps| - 1;
      NoReadingLost(s, steps[..n], stale, k, history);
      var before, so := Exec(s, steps[..n], stale), Accepted(s, steps[..n], stale, k);
      StepBuffersAfter(before, steps[n], stale, k, history, so);
    }
  }

  predicate Records(step: Step, t: ActuatorType) { step.State? && step.t == t }
  predicate Says(s: Room, t: ActuatorType, on: bool) { t in s.states && s.states[t] == on }

  lemma StateStep(s: Room, step: Step, stale: int, t: ActuatorType)
    ensures Records(step, t) && step.a in s.held ==> Says(Next(s, step, stale), t, step.on)
    ensures forall on :: !Records(step, t) && Says(s, t, on) ==> Says(Next(s, step, stale), t, on)
  {
  }

  lemma {:induction false} SaysKept(s: Room, steps: seq<Step>, stale: int, t: ActuatorType, on: bool)
    requires Says(s, t, on) && forall j :: 0 <= j < |steps| ==> !Records(steps[j], t)
    ensures Says(Exec(s, steps, stale), t, on)
  {
    if steps != [] {
      var n := |steps| - 1;
      SaysKept(s, steps[..n], stale, t, on);
      StateStep(Exec(s, steps[..n], stale), steps[n], stale, t);
    }
  }

  lemma ExecSnoc(s: Room, steps: seq<Step>, step: Step, stale: int)
    ensures Exec(s, steps + [step], stale) == Next(Exec(s, steps, stale), step, stale)
  {
    assert (steps + [step])[..|steps|] == steps;
  }

  lemma {:induction false} ExecConcat(s: Room, a: seq<Step>, b: seq<Step>, stale: int)
    ensures Exec(s, a + b, stale) == Exec(Exec(s, a, stale), b, stale)
  {
    if b == [] {
      assert a + b == a;
    } else {
      var n := |b| - 1;
      ExecConcat(s, a, b[..n], stale);
      ExecSnoc(s, a + b[..n], b[n], stale);
      ExecSnoc(Exec(s, a, stale), b[..n], b[n], stale);
      assert b == b[..n] + [b[n]] && a + b == a + b[..n] + [b[n]];
    }
  }

  /** The state of a type is what was recorded last. */
  lemma LastRecordedStands(s: Room, steps: seq<Step>, stale: int, i: nat)
    requires i < |steps| && steps[i].State? && steps[i].a in Exec(s, steps[..i], stale).held
    requires forall j :: i < j < |steps| ==> !Records(steps[j], steps[i].t)
    ensures Says(Exec(s, steps, stale), steps[i].t, steps[i].on)
  {
    var upto, rest := steps[..i + 1], steps[i + 1..];
    assert steps == steps[..i] + [steps[i]] + rest && upto == steps[..i] + [steps[i]];
    ExecSnoc(s, steps[..i], steps[i], stale);
    StateStep(Exec(s, steps[..i], stale), steps[i], stale, steps[i].t);
    ExecConcat(s, upto, rest, stale);
    SaysKept(Exec(s, upto, stale), rest, stale, steps[i].t, steps[i].on);
  }

  // ---------------------------------------------------------------------
  // LastActivePeriod can be lost
  // ---------------------------------------------------------------------

  function CurrentLast(s: Room): Option<PeriodCache> { LastOf(s, s.current) }

  predicate SetsLast(step: Step) { step.Last? }
  ghost predicate NoLast(steps: seq<Step>) { forall j :: 0 <= j < |steps| ==> !SetsLast(steps[j]) }

  lemma {:induction false} ExecOk(s: Room, steps: seq<Step>, stale: int)
    requires Ok(s)
    ensures Ok(Exec(s, steps, stale))
  {
    if steps != [] {
      ExecOk(s, steps[..|steps| - 1], stale);
      NextOk(Exec(s, steps[..|steps| - 1], stale), steps[|steps| - 1], stale);
    }
  }

  lemma NextOk(s: Room, step: Step, stale: int)
    requires Ok(s)
    ensures Ok(Next(s, step, stale))
  {
  }

  /** The entries that by the end of `steps` are entry `e` or descend from it:
      each was copied from one of them. */
  function Heirs(s: Room, steps: seq<Step>, stale: int, e: nat): set<nat> {
    if steps == [] then {e}
    else
      var n := |steps| - 1;
      var before, so := Exec(s, steps[..n], stale), Heirs(s, steps[..n], stale, e);
      if CopiesFrom(before, steps[n], so) then so + {|before.last|} else so
  }

  lemma {:induction false} HeirsBelow(s: Room, steps: seq<Step>, stale: int, e: nat)
    requires e < |s.last|
    ensures forall i :: i in Heirs(s, steps, stale, e) ==> i < |Exec(s, steps, stale).last|
  {
    if steps != [] { HeirsBelow(s, steps[..|steps| - 1], stale, e); }
  }

  /** The step is a copy from one of these entries. */
  predicate CopiesFrom(s: Room, step: Step, from: set<nat>) { step.Copy? && step.a in s.found && s.found[step.a] in from }

  /** Two states that differ only in that the entries in `heirs` hold `p` in
      the first. */
  ghost predicate Inherited(a: Room, b: Room, heirs: set<nat>, p: PeriodCache) {
    && |a.last| == |b.last| && a == b.(last := a.last)
    && forall i :: 0 <= i < |a.last| ==> a.last[i] == if i in heirs then Some(p) else b.last[i]
  }

  lemma InheritedStep(a: Room, b: Room, step: Step, stale: int, heirs: set<nat>, p: PeriodCache)
    requires Inherited(a, b, heirs, p) && !SetsLast(step)
    requires forall i :: i in heirs ==> i < |a.last|
    ensures Inherited(
      Next(a, step, stale), Next(b, step, stale),
      if CopiesFrom(a, step, heirs) then heirs + {|a.last|} else heirs, p)
  {
  }

  /** What one write of LastActivePeriod changes in the rest of the run: it is
      seen through the written entry's heirs, and nowhere else. */
  lemma {:induction false} WriteReaches(s: Room, t: Actor, p: PeriodCache, post: seq<Step>, stale: int)
    requires t in s.held && s.held[t] < |s.last| && NoLast(post)
    ensures var w := Next(s, Last(t, p), stale);
      Inherited(Exec(w, post, stale), Exec(s, post, stale), Heirs(w, post, stale, s.held[t]), p)
  {
    var w := Next(s, Last(t, p), stale);
    if post != [] {
      var n := |post| - 1;
      WriteReaches(s, t, p, post[..n], stale);
      assert !SetsLast(post[n]);
      HeirsBelow(w, post[..n], stale, s.held[t]);
      InheritedStep(
        Exec(w, post[..n], stale), Exec(s, post[..n], stale), post[n], stale, Heirs(w, post[..n], stale, s.held[t]), p);
    }
  }

  lemma {:induction false} NothingNew(s: Room, post: seq<Step>, stale: int, x: Option<PeriodCache>)
    requires NoLast(post) && x.Some? && x !in s.last
    ensures x !in Exec(s, post, stale).last
  {
    if post != [] {
      NothingNew(s, post[..|post| - 1], stale, x);
      assert !SetsLast(post[|post| - 1]);
    }
  }

  /** Exactly when a tick's LastActivePeriod is what the room ends up with,
      over any run in which it is the last one set: when the final entry is
      the one the tick held, or descends from it by copies taken after the
      write. Otherwise the run ends as if it had never been set. */
  lemma LastPeriodSurvivesExactly(s: Room, pre: seq<Step>, t: Actor, p: PeriodCache, post: seq<Step>, stale: int)
    requires Ok(s) && t in Exec(s, pre, stale).held && NoLast(post)
    ensures var written := Exec(s, pre + [Last(t, p)], stale);
      var heirs := Heirs(written, post, stale, Exec(s, pre, stale).held[t]);
      var final, without := Exec(s, pre + [Last(t, p)] + post, stale), Exec(s, pre + post, stale);
      && final.current == without.current
      && CurrentLast(final) == (if final.current in heirs then Some(p) else CurrentLast(without))
      && (Some(p) !in Exec(s, pre, stale).last ==> (CurrentLast(final) == Some(p) <==> final.current in heirs))
  {
    var m := Exec(s, pre, stale);
    ExecOk(s, pre, stale);
    assert (pre + [Last(t, p)])[..|pre|] == pre;
    ExecConcat(s, pre + [Last(t, p)], post, stale);
    ExecConcat(s, pre, post, stale);
    WriteReaches(m, t, p, post, stale);
    HeirsBelow(Next(m, Last(t, p), stale), post, stale, m.held[t]);
    if Some(p) !in m.last { NothingNew(m, post, stale, Some(p)); }
  }

  /** The current entry, and every entry found or built by a reload under way,
      is an heir. */
  ghost predicate AllHeirs(s: Room, heirs: set<nat>) {
    && s.current in heirs
    && (forall a :: a in s.found ==> s.found[a] in heirs)
    && (forall a :: a in s.built ==> s.built[a] in heirs)
  }

  lemma {:induction false} HeirsStay(s: Room, steps: seq<Step>, stale: int, e: nat)
    requires e == s.current && s.found == map[] && s.built == map[]
    ensures AllHeirs(Exec(s, steps, stale), Heirs(s, steps, stale, e))
  {
    if steps != [] {
      var n := |steps| - 1;
      HeirsStay(s, steps[..n], stale, e);
      AllHeirsStep(Exec(s, steps[..n], stale), steps[n], stale, Heirs(s, steps[..n], stale, e));
    }
  }

  lemma AllHeirsStep(s: Room, step: Step, stale: int, heirs: set<nat>)
    requires AllHeirs(s, heirs)
    ensures AllHeirs(Next(s, step, stale), if CopiesFrom(s, step, heirs) then heirs + {|s.last|} else heirs)
  {
  }

  /** A tick that overlaps no reload is never undone: if no reload is under way
      at the write and the tick still holds the current entry, its period
      stands through whatever reloads follow, by whichever reloaders. */
  lemma TickOutsideReloadsStands(s: Room, pre: seq<Step>, t: Actor, p: PeriodCache, post: seq<Step>, stale: int)
    requires Ok(s) && NoLast(post)
    requires var m := Exec(s, pre, stale); t in m.held && m.held[t] == m.current && m.found == map[] && m.built == map[]
    ensures CurrentLast(Exec(s, pre + [Last(t, p)] + post, stale)) == Some(p)
  {
    assert (pre + [Last(t, p)])[..|pre|] == pre;
    var w := Exec(s, pre + [Last(t, p)], stale);
    LastPeriodSurvivesExactly(s, pre, t, p, post, stale);
    HeirsStay(w, post, stale, w.current);
    ExecConcat(s, pre + [Last(t, p)], post, stale);
  }

  // One tick and one reload.

  function Reload(a: Actor, c: RoomConfig): seq<Step> { [Look(a), Copy(a, c), Install(a)] }

  /** A tick's grab before the reload's step `g`, its write before step `w`. */
  function Merge(t: Actor, p: PeriodCache, a: Actor, c: RoomConfig, g: nat, w: nat): seq<Step>
    requires g <= w <= 3
  {
    var r := Reload(a, c);
    r[..g] + [Grab(t)] + r[g..w] + [Last(t, p)] + r[w..]
  }

  lemma MergeAt(t: Actor, p: PeriodCache, a: Actor, c: RoomConfig, g: nat, w: nat)
    requires g <= w <= 3
    ensures var m, r := Merge(t, p, a, c, g, w), Reload(a, c);
      && |m| == 5
      && forall i :: 0 <= i < 5 ==>
           m[i] == if i < g then r[i] else if i == g then Grab(t) else if i <= w then r[i - 1] else if i == w + 1 then Last(t, p) else r[i - 2]
  {
  }

  function NextThree(s: Room, m: seq<Step>, stale: int): Room
    requires |m| >= 3
  {
    Next(Next(Next(s, m[0], stale), m[1], stale), m[2], stale)
  }

  lemma ExecFive(s: Room, m: seq<Step>, stale: int)
    requires |m| == 5
    ensures Exec(s, m, stale) == Next(Next(NextThree(s, m, stale), m[3], stale), m[4], stale)
  {
    assert m[..4][..3] == m[..3] && m[..3][..2] == m[..2] && m[..2][..1] == m[..1] && m[..1][..0] == [];
    assert Exec(s, m[..1], stale) == Next(s, m[0], stale);
    assert Exec(s, m[..2], stale) == Next(Exec(s, m[..1], stale), m[1], stale);
    assert Exec(s, m[..3], stale) == Next(Exec(s, m[..2], stale), m[2], stale);
    assert Exec(s, m[..4], stale) == Next(Exec(s, m[..3], stale), m[3], stale);
  }

  predicate AboutToCopy(s: Room, a: Actor, x: Option<PeriodCache>) { a in s.found && LastOf(s, s.found[a]) == x }

  /** The reload has copied `x`, and the tick holds another entry. */
  predicate Copied(s: Room, a: Actor, t: Actor, x: Option<PeriodCache>) {
    a in s.built && t in s.held && s.held[t] != s.built[a] && LastOf(s, s.built[a]) == x
  }

  lemma WriteFirst(s: Room, m: seq<Step>, stale: int, t: Actor, p: PeriodCache, a: Actor)
    requires s.current < |s.last| && |m| == 5
    requires m[..3] == [Grab(t), Last(t, p), Look(a)] || m[..3] == [Grab(t), Look(a), Last(t, p)] || m[..3] == [Look(a), Grab(t), Last(t, p)]
    ensures AboutToCopy(NextThree(s, m, stale), a, Some(p))
  {
    assert m[0] == m[..3][0] && m[1] == m[..3][1] && m[2] == m[..3][2];
  }

  lemma CopyFirst(s: Room, m: seq<Step>, stale: int, t: Actor, a: Actor, c: RoomConfig)
    requires s.current < |s.last| && |m| == 5
    requires m[..3] == [Grab(t), Look(a), Copy(a, c)] || m[..3] == [Look(a), Grab(t), Copy(a, c)] || m[..3] == [Look(a), Copy(a, c), Grab(t)]
    ensures Copied(NextThree(s, m, stale), a, t, CurrentLast(s))
  {
    assert m[0] == m[..3][0] && m[1] == m[..3][1] && m[2] == m[..3][2];
  }

  /** The last two steps of the merge. */
  lemma Ending(s: Room, stale: int, t: Actor, p: PeriodCache, a: Actor, c: RoomConfig, x: Option<PeriodCache>)
    ensures AboutToCopy(s, a, x) ==> CurrentLast(Next(Next(s, Copy(a, c), stale), Install(a), stale)) == x
    ensures Copied(s, a, t, x) ==> CurrentLast(Next(Next(s, Last(t, p), stale), Install(a), stale)) == x
    ensures Copied(s, a, t, x) ==> CurrentLast(Next(Next(s, Install(a), stale), Last(t, p), stale)) == x
    ensures s.current < |s.last| ==> CurrentLast(Next(Next(s, Grab(t), stale), Last(t, p), stale)) == Some(p)
  {
  }

  lemma InstalledInRange(s: Room, m: seq<Step>, stale: int, a: Actor, c: RoomConfig)
    requires s.current < |s.last| && |m| == 5 && m[..3] == Reload(a, c)
    ensures NextThree(s, m, stale).current < |NextThree(s, m, stale).last|
  {
    assert m[0] == m[..3][0] && m[1] == m[..3][1] && m[2] == m[..3][2];
  }

  /** One tick (grab the entry, set its LastActivePeriod) and one reload (look
      up, copy, install) in all ten orders: the tick's period survives exactly
      if it was set before the copy, or the entry was grabbed after the
      install. */
  lemma OneTickOneReload(s: Room, stale: int, t: Actor, p: PeriodCache, a: Actor, c: RoomConfig, g: nat, w: nat)
    requires s.current < |s.last| && g <= w <= 3
    ensures CurrentLast(Exec(s, Merge(t, p, a, c, g, w), stale)) == if w <= 1 || g == 3 then Some(p) else CurrentLast(s)
  {
    var m := Merge(t, p, a, c, g, w);
    MergeAt(t, p, a, c, g, w);
    assert m[..3] == [m[0], m[1], m[2]];
    ExecFive(s, m, stale);
    var half := NextThree(s, m, stale);
    if w <= 1 {
      WriteFirst(s, m, stale, t, p, a);
      Ending(half, stale, t, p, a, c, Some(p));
    } else if g <= 2 {
      CopyFirst(s, m, stale, t, a, c);
      Ending(half, stale, t, p, a, c, CurrentLast(s));
    } else {
      InstalledInRange(s, m, stale, a, c);
      Ending(half, stale, t, p, a, c, Some(p));
    }
  }
}
