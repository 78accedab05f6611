/** A small run of accepted requests, and what the services let pass in it: a
    room without devices ends up with an active schedule it cannot serve. */
module ApiRuns {
  import opened Base
  import opened Times
  import opened Tables
  import opened Api
  import opened ApiCapability

  // ---------------------------------------------------------------------
  // Following a run state by state
  // ---------------------------------------------------------------------

  ghost predicate Leads(from: Db, op: Op, to: Db) { Apply(from, op).reply.Done? && Apply(from, op).db == to }

  /** Each request of `o` is accepted and leads from one state of `d` to the
      next. */
  lemma {:induction false} Followed(d: seq<Db>, o: seq<Op>)
    requires |d| == |o| + 1 && forall i :: 0 <= i < |o| ==> Leads(d[i], o[i], d[i + 1])
    ensures Run(d[0], o) == d[|o|] && AllDone(d[0], o)
    decreases |o|
  {
    if o != [] {
      assert Leads(d[0], o[0], d[1]);
      forall i | 0 <= i < |o[1..]| ensures Leads(d[1..][i], o[1..][i], d[1..][i + 1]) {
        assert Leads(d[i + 1], o[i + 1], d[i + 2]);
      }
      Followed(d[1..], o[1..]);
    }
  }

  // ---------------------------------------------------------------------
  // One room, one schedule, two periods
  // ---------------------------------------------------------------------

  const NINE_TO_TEN := PeriodInput([1], "09:00", "10:00", Off, NO_TARGETS)

  /** A schedule with an OFF period is activated; then comes another period. */
  function SmallOp(x: PeriodInput, n: nat): Op {
    if n == 0 then OpRegister("a@b")
    else if n == 1 then OpCreateRoom(0, "room")
    else if n == 2 then OpCreateSchedule(1, 0, "week")
    else if n == 3 then OpCreatePeriod(2, 0, NINE_TO_TEN)
    else if n == 4 then OpActivate(2, 0)
    else OpCreatePeriod(2, 0, x)
  }

  function SmallRun(x: PeriodInput): (r: seq<Op>)
    ensures |r| == 6 && forall n :: 0 <= n < 6 ==> r[n] == SmallOp(x, n)
  {
    seq(6, (n: nat) => SmallOp(x, n))
  }

  /** The tables after the first `n` of those requests. */
  function SmallDb(x: PeriodInput, n: nat): Db {
    Db(if n < 1 then map[] else map[0 := UserRow("a@b", "UTC")],
       if n < 2 then map[] else map[1 := RoomRow(0, "room", DEFAULT_TEMP_DEADBAND, DEFAULT_HUM_DEADBAND)],
       if n < 2 then map[] else map[1 := DesiredRow(Off, false, NO_TARGETS, None)],
       map[],
       if n < 3 then map[] else map[2 := ScheduleRow(1, 0, "week", n > 4)],
       if n < 4 then map[]
       else if n < 6 then map[3 := ToRow(2, NINE_TO_TEN)]
       else map[3 := ToRow(2, NINE_TO_TEN), 4 := ToRow(2, x)],
       if n < 4 then n else if n < 6 then 4 else 5)
  }

  /** The period is well formed and does not overlap NINE_TO_TEN, as the API
      sees it. */
  predicate Fits(x: PeriodInput) {
    GoodRequest(x) && LexLess(x.start, x.end) && !Clash(ToRow(2, NINE_TO_TEN), ToRow(2, x))
  }

  lemma SetUp(x: PeriodInput)
    ensures Leads(SmallDb(x, 0), SmallOp(x, 0), SmallDb(x, 1))
    ensures Leads(SmallDb(x, 1), SmallOp(x, 1), SmallDb(x, 2))
    ensures Leads(SmallDb(x, 2), SmallOp(x, 2), SmallDb(x, 3))
  {
  }

  lemma ClockText(s: string, h1: char, h2: char, m1: char, m2: char)
    requires s == [h1, h2, ':', m1, m2]
    requires IsDigit(h1) && IsDigit(h2) && IsDigit(m1) && IsDigit(m2)
    requires 10 * Digit(h1) + Digit(h2) < 24 && 10 * Digit(m1) + Digit(m2) < 60
    ensures Padded(s) && Minutes(s) == 60 * (10 * Digit(h1) + Digit(h2)) + 10 * Digit(m1) + Digit(m2)
  {
  }

  /** A well-formed period that overlaps nothing is inserted. */
  lemma PeriodInserted(db: Db, s: Id, u: Id, x: PeriodInput)
    requires GoodRequest(x) && OwnsSchedule(db, s, u) && LexLess(x.start, x.end)
    requires forall p :: p in db.periods ==> !Clash(db.periods[p], ToRow(s, x))
    ensures Leads(db, OpCreatePeriod(s, u, x), db.(periods := db.periods[db.next := ToRow(s, x)], next := db.next + 1))
  {
  }

  lemma NineToTen()
    ensures GoodRequest(NINE_TO_TEN) && Padded("09:00") && Padded("10:00") && LexLess("09:00", "10:00")
    ensures Minutes("09:00") == 540 && Minutes("10:00") == 600
  {
    ClockText("09:00", '0', '9', '0', '0');
    ClockText("10:00", '1', '0', '0', '0');
    LexAt("09:00", "10:00", 0);
  }

  lemma FirstPeriod(x: PeriodInput)
    ensures Leads(SmallDb(x, 3), SmallOp(x, 3), SmallDb(x, 4))
  {
    NineToTen();
    PeriodInserted(SmallDb(x, 3), 2, 0, NINE_TO_TEN);
  }

  lemma Activation(x: PeriodInput)
    ensures Leads(SmallDb(x, 4), SmallOp(x, 4), SmallDb(x, 5))
  {
    var db := SmallDb(x, 4);
    forall p | p in db.periods ensures Backed(db, 1, db.periods[p].targets) {}
    assert PeriodsHaveCapability(db, 2, 1);
    assert Activate(db, 2, 0).db.schedules == SmallDb(x, 5).schedules;
  }

  lemma SecondPeriod(x: PeriodInput)
    requires Fits(x)
    ensures Leads(SmallDb(x, 5), SmallOp(x, 5), SmallDb(x, 6))
  {
    PeriodInserted(SmallDb(x, 5), 2, 0, x);
    assert SmallDb(x, 5).periods[4 := ToRow(2, x)] == SmallDb(x, 6).periods;
  }

  /** From empty tables, six accepted requests lead to the last of these
      states, whichever fitting period comes last. */
  lemma SmallRunFollowed(x: PeriodInput)
    requires Fits(x)
    ensures Run(EMPTY_DB, SmallRun(x)) == SmallDb(x, 6) && AllDone(EMPTY_DB, SmallRun(x))
  {
    var d, o := seq(7, (n: nat) => SmallDb(x, n)), SmallRun(x);
    SetUp(x);
    FirstPeriod(x);
    Activation(x);
    SecondPeriod(x);
    forall n | 0 <= n < 6 ensures Leads(d[n], o[n], d[n + 1]) {
      assert d[n] == SmallDb(x, n) && d[n + 1] == SmallDb(x, n + 1);
      assert n == 0 || n == 1 || n == 2 || n == 3 || n == 4 || n == 5;
    }
    Followed(d, o);
  }

  // ---------------------------------------------------------------------
  // What it leaves unserved
  // ---------------------------------------------------------------------

  const ELEVEN_TO_TWELVE := PeriodInput([1], "11:00", "12:00", Auto, Targets(Some(20.0), None))

  lemma ElevenFits()
    ensures Fits(ELEVEN_TO_TWELVE)
  {
    ClockText("11:00", '1', '1', '0', '0');
    ClockText("12:00", '1', '2', '0', '0');
    LexAt("11:00", "12:00", 1);
    LexAt("11:00", "10:00", 1);
  }

  predicate ActiveUnserved(db: Db, s: Id) { s in db.schedules && db.schedules[s].active && !ScheduleServed(db, s) }

  /** Accepted requests leave a room without any device with an active schedule
      that asks for a temperature: by creating the period after activation. */
  lemma UnservedByCreation()
    ensures AllDone(EMPTY_DB, SmallRun(ELEVEN_TO_TWELVE))
    ensures ActiveUnserved(Run(EMPTY_DB, SmallRun(ELEVEN_TO_TWELVE)), 2)
  {
    ElevenFits();
    SmallRunFollowed(ELEVEN_TO_TWELVE);
    var db := SmallDb(ELEVEN_TO_TWELVE, 6);
    assert 4 in db.periods && !Backed(db, 1, db.periods[4].targets);
  }

  lemma BeforeTheLast(x: PeriodInput)
    ensures Run(EMPTY_DB, SmallRun(x)[..5]) == SmallDb(x, 5) && AllDone(EMPTY_DB, SmallRun(x)[..5])
  {
    var d, o := seq(6, (n: nat) => SmallDb(x, n)), SmallRun(x)[..5];
    SetUp(x);
    FirstPeriod(x);
    Activation(x);
    forall n | 0 <= n < 5 ensures Leads(d[n], o[n], d[n + 1]) {
      assert d[n] == SmallDb(x, n) && d[n + 1] == SmallDb(x, n + 1);
      assert n == 0 || n == 1 || n == 2 || n == 3 || n == 4;
    }
    Followed(d, o);
  }

  /** Or by updating the OFF period afterwards. */
  lemma UnservedByUpdate()
    ensures var db := SmallDb(ELEVEN_TO_TWELVE, 5);
      && Run(EMPTY_DB, SmallRun(ELEVEN_TO_TWELVE)[..5]) == db && AllDone(EMPTY_DB, SmallRun(ELEVEN_TO_TWELVE)[..5])
      && !ActiveUnserved(db, 2)
      && UpdatePeriod(db, 3, 0, ELEVEN_TO_TWELVE).reply.Done?
      && ActiveUnserved(UpdatePeriod(db, 3, 0, ELEVEN_TO_TWELVE).db, 2)
  {
    BeforeTheLast(ELEVEN_TO_TWELVE);
    ElevenFits();
    UpdatePeriodServedExactly(SmallDb(ELEVEN_TO_TWELVE, 5), 3, 0, ELEVEN_TO_TWELVE);
  }
}
