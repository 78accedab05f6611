/** The period lookup takes the first match of an unordered query. When that
    is harmless, and what the API contributes to it. */
module ControlOrder {
  import opened Base
  import opened Times
  import opened Tables
  import opened Api
  import opened ApiIntegrity
  import opened ApiRuns
  import opened Cache
  import opened Appdb
  import opened Control

  /** No two of the periods are in force at this tick. */
  ghost predicate OneAt(all: set<PeriodCache>, now: Now) {
    forall p, q :: p in all && q in all && Matches(p, now) && Matches(q, now) ==> p == q
  }

  ghost predicate AtMostOne(all: set<PeriodCache>) { forall now :: OneAt(all, now) }

  lemma FirstMatchOrderFree(s: seq<PeriodCache>, t: seq<PeriodCache>, all: set<PeriodCache>, now: Now)
    requires Enumerates(s, all) && Enumerates(t, all) && OneAt(all, now)
    ensures FirstMatch(s, now) == FirstMatch(t, now)
  {
    FirstMatchFinds(s, now);
    FirstMatchFinds(t, now);
    if FirstMatch(s, now).Some? {
      var p := FirstMatch(s, now).value;
      assert p in all && p in t;
    }
    if FirstMatch(t, now).Some? {
      var p := FirstMatch(t, now).value;
      assert p in all && p in s;
    }
  }

  ghost predicate OrderFree(all: set<PeriodCache>) {
    forall s, t, now :: Enumerates(s, all) && Enumerates(t, all) ==> FirstMatch(s, now) == FirstMatch(t, now)
  }

  /** The lookup gives the same period for every order of the rows, at every
      time, exactly when no two of them are ever in force together. */
  lemma OrderFreeExactly(all: set<PeriodCache>)
    ensures OrderFree(all) <==> AtMostOne(all)
  {
    if AtMostOne(all) {
      forall s, t, now | Enumerates(s, all) && Enumerates(t, all) ensures FirstMatch(s, now) == FirstMatch(t, now) {
        FirstMatchOrderFree(s, t, all, now);
      }
    }
    if OrderFree(all) {
      forall p, q, now | p in all && q in all && Matches(p, now) && Matches(q, now) ensures p == q {
        var s := EnumerationFrom(all, p);
        var t := EnumerationFrom(all, q);
        assert FirstMatch(s, now) == Some(p);
        assert FirstMatch(t, now) == Some(q);
      }
    }
  }

  // ---------------------------------------------------------------------
  // What the API guarantees about a room's active periods
  // ---------------------------------------------------------------------

  /** The effective state without the search: which source decides, and with
      what. Only a manual override that has not ended beats a period in force;
      only its absence lets the minute after the last period through. */
  lemma EffectiveStateExactly(c: RoomConfig, last: Option<PeriodCache>, now: Now)
    ensures var es, d := Resolve(c, last, now), c.desired;
      var manual := d.manualActive && d.until.Some? && now.instant < d.until.value;
      var scheduled := exists p :: p in c.periods && Matches(p, now);
      var ended := last.Some? && now.day in last.value.days && last.value.endMinutes <= now.minute < last.value.endMinutes + 1;
      && (es.source == ManualOverride <==> manual)
      && (es.source == Schedule <==> !manual && scheduled)
      && (es.source == GracePeriod <==> !manual && !scheduled && ended)
      && (es.source == ManualOverride ==> es.mode == d.mode && es.targets == d.targets && es.period == None)
      && (es.source == Schedule ==>
            && es.period.Some? && es.period.value in c.periods && Matches(es.period.value, now)
            && es.mode == es.period.value.mode && es.targets == es.period.value.targets)
      && (es.source == GracePeriod ==> es.period == last && es.mode == last.value.mode && es.targets == last.value.targets)
      && (es.source == NoSource ==> es.mode == Off && es.targets == NO_TARGETS && es.period == None)
  {
    FirstMatchFinds(c.periods, now);
  }

  /** Grace lasts one minute: with no override and no period in force, the last
      period still decides in the minute it ends at, on its days, and at every
      other minute, all later ones among them, the room is off. */
  lemma GraceIsOneMinute(c: RoomConfig, last: PeriodCache, now: Now)
    requires c.desired.manualActive ==> c.desired.until.None? || c.desired.until.value <= now.instant
    requires forall i :: 0 <= i < |c.periods| ==> !Matches(c.periods[i], now)
    ensures now.day in last.days && now.minute == last.endMinutes ==>
      Resolve(c, Some(last), now) == Effective(last.mode, last.targets, GracePeriod, Some(last))
    ensures now.day !in last.days || now.minute != last.endMinutes ==>
      Resolve(c, Some(last), now) == Effective(Off, NO_TARGETS, NoSource, None)
    ensures now.minute > last.endMinutes ==> Resolve(c, Some(last), now) == Effective(Off, NO_TARGETS, NoSource, None)
    ensures Resolve(c, None, now) == Effective(Off, NO_TARGETS, NoSource, None)
  {
    FirstMatchFinds(c.periods, now);
  }

  /** Text order and clock order agree between the times of the room's active
      periods; padded times always do. */
  ghost predicate TimesAgree(db: Db, r: Id) {
    forall p, q :: p in ActivePeriods(db, r) && q in ActivePeriods(db, r) && p != q ==>
      && Accepted(db.periods[p].start) && Accepted(db.periods[q].end)
      && OrderAgrees(db.periods[p].start, db.periods[q].end)
  }

  lemma PaddedTimesAgree(db: Db, r: Id)
    requires forall p :: p in ActivePeriods(db, r) ==> Padded(db.periods[p].start) && Padded(db.periods[p].end)
    ensures TimesAgree(db, r)
  {
    forall p, q | p in ActivePeriods(db, r) && q in ActivePeriods(db, r) && p != q
      ensures OrderAgrees(db.periods[p].start, db.periods[q].end)
    {
      SameWidthAgree(db.periods[p].start, db.periods[q].end);
    }
  }

  lemma NoClashNoMeeting(p: PeriodScan, q: PeriodScan, now: Now)
    requires PeriodChecks(p.row) && PeriodChecks(q.row) && !Clash(p.row, q.row)
    requires OrderAgrees(p.row.start, q.row.end) && OrderAgrees(q.row.start, p.row.end)
    ensures !(Matches(CachePeriod(p), now) && Matches(CachePeriod(q), now))
  {
    AcceptedParses(p.row.start);
    AcceptedParses(p.row.end);
    AcceptedParses(q.row.start);
    AcceptedParses(q.row.end);
    if now.day in p.row.days && now.day in q.row.days {
      assert now.day in p.row.days * q.row.days;
    }
  }

  /** Single activation and the overlap check leave at most one period of the
      room in force at any time. */
  lemma OneInForce(db: Db, r: Id)
    requires OneActive(db.schedules) && NoClash(db.periods) && TimesAgree(db, r)
    requires forall p :: p in db.periods ==> PeriodChecks(db.periods[p])
    ensures AtMostOne(CachedPeriods(r, ActivePeriods(db, r)))
  {
    var active := ActivePeriods(db, r);
    forall a, b, now | a in CachedPeriods(r, active) && b in CachedPeriods(r, active) && Matches(a, now) && Matches(b, now)
      ensures a == b
    {
      var p :| p in active && a == CachePeriod(PeriodScan(p, r, active[p]));
      var q :| q in active && b == CachePeriod(PeriodScan(q, r, active[q]));
      if p != q {
        assert db.periods[p].schedule == db.periods[q].schedule;
        NoClashNoMeeting(PeriodScan(p, r, active[p]), PeriodScan(q, r, active[q]), now);
      }
    }
  }

  lemma EmptyValid()
    ensures Valid(EMPTY_DB)
  {
  }

  /** After any run of requests, two cache entries built from the room's rows in
      different orders resolve to the same effective state at every tick, if
      the times of its active periods agree. */
  lemma OrderIndependence(ops: seq<Op>, r: Id, a: RoomConfig, b: RoomConfig, last: Option<PeriodCache>, now: Now)
    requires RowsOf(Run(EMPTY_DB, ops), r).Some? && TimesAgree(Run(EMPTY_DB, ops), r)
    requires Describes(a, r, RowsOf(Run(EMPTY_DB, ops), r).value)
    requires Describes(b, r, RowsOf(Run(EMPTY_DB, ops), r).value)
    ensures Resolve(a, last, now) == Resolve(b, last, now)
  {
    var db := Run(EMPTY_DB, ops);
    EmptyValid();
    RunValid(EMPTY_DB, ops);
    OneInForce(db, r);
    FirstMatchOrderFree(a.periods, b.periods, CachedPeriods(r, ActivePeriods(db, r)), now);
  }

  // ---------------------------------------------------------------------
  // Exactly when the order of the rows does not matter
  // ---------------------------------------------------------------------

  /** Every entry for the rows resolves to the same state at this tick. */
  ghost predicate Alike(r: Id, rows: RoomRows, last: Option<PeriodCache>, now: Now) {
    forall a, b :: Describes(a, r, rows) && Describes(b, r, rows) ==> Resolve(a, last, now) == Resolve(b, last, now)
  }

  lemma SomeEnumeration<T>(all: set<T>) returns (s: seq<T>)
    ensures Enumerates(s, all)
  {
    if x :| x in all { s := EnumerationFrom(all, x); } else { s := []; }
  }

  /** Any order of the periods is the order of some entry. */
  lemma EntryWithPeriods(r: Id, rows: RoomRows, periods: seq<PeriodCache>) returns (c: RoomConfig)
    requires Enumerates(periods, CachedPeriods(r, rows.periods))
    ensures Describes(c, r, rows) && c.periods == periods
  {
    var heaters := SomeEnumeration(WithActuator(rows.fixtures, Heater));
    var humidifiers := SomeEnumeration(WithActuator(rows.fixtures, Humidifier));
    var listed: map<ActuatorType, seq<HwId>> :=
      (if heaters == [] then map[] else map[Heater := heaters]) + (if humidifiers == [] then map[] else map[Humidifier := humidifiers]);
    c := RoomConfig(r, rows.timezone, rows.deadbandTemp, rows.deadbandHum, rows.desired, periods, listed);
    assert HwIds(c, Heater) == heaters && HwIds(c, Humidifier) == humidifiers;
  }

  lemma ResolvedPeriod(c: RoomConfig, last: Option<PeriodCache>, now: Now, p: PeriodCache)
    requires !Overridden(c.desired, now) && FirstMatch(c.periods, now) == Some(p)
    ensures Resolve(c, last, now).period == Some(p)
  {
  }

  /** At one tick without a manual override, all entries for the rows resolve
      alike exactly when at most one of the room's periods is in force. */
  lemma AlikeExactly(r: Id, rows: RoomRows, last: Option<PeriodCache>, now: Now)
    requires !Overridden(rows.desired, now)
    ensures Alike(r, rows, last, now) <==> OneAt(CachedPeriods(r, rows.periods), now)
  {
    var all := CachedPeriods(r, rows.periods);
    if OneAt(all, now) {
      forall a, b | Describes(a, r, rows) && Describes(b, r, rows) ensures Resolve(a, last, now) == Resolve(b, last, now) {
        FirstMatchOrderFree(a.periods, b.periods, all, now);
      }
    }
    if Alike(r, rows, last, now) {
      forall p, q | p in all && q in all && Matches(p, now) && Matches(q, now) ensures p == q {
        var s := EnumerationFrom(all, p);
        var t := EnumerationFrom(all, q);
        var a := EntryWithPeriods(r, rows, s);
        var b := EntryWithPeriods(r, rows, t);
        ResolvedPeriod(a, last, now, p);
        ResolvedPeriod(b, last, now, q);
        assert Resolve(a, last, now) == Resolve(b, last, now);
      }
    }
  }

  /** Two periods share a day, and on it a minute. */
  predicate Meet(p: PeriodRow, q: PeriodRow) {
    && p.days * q.days != {}
    && MinutesOf(p.start) < MinutesOf(p.end) && MinutesOf(q.start) < MinutesOf(q.end)
    && MinutesOf(p.start) < MinutesOf(q.end) && MinutesOf(q.start) < MinutesOf(p.end)
  }

  ghost predicate NoneMeet(db: Db, r: Id) {
    forall p, q :: p in ActivePeriods(db, r) && q in ActivePeriods(db, r) && p != q ==> !Meet(db.periods[p], db.periods[q])
  }

  function InCache(r: Id, p: Id, row: PeriodRow): PeriodCache { CachePeriod(PeriodScan(p, r, row)) }

  lemma MeetingMinute(r: Id, p: Id, q: Id, x: PeriodRow, y: PeriodRow, instant: int) returns (now: Now)
    requires Meet(x, y) && forall d :: d in x.days ==> 1 <= d <= 7
    ensures Matches(InCache(r, p, x), now) && Matches(InCache(r, q, y), now) && now.instant == instant
  {
    var d := SomeMember(x.days * y.days);
    var m := if MinutesOf(x.start) >= MinutesOf(y.start) then MinutesOf(x.start) else MinutesOf(y.start);
    now := Now(instant, d, m);
  }

  lemma MatchingMeet(r: Id, p: Id, q: Id, x: PeriodRow, y: PeriodRow, now: Now)
    requires Matches(InCache(r, p, x), now) && Matches(InCache(r, q, y), now)
    ensures Meet(x, y)
  {
    assert now.day in x.days * y.days;
  }

  /** A moment at which no override of this row is in force. */
  function Expired(d: DesiredRow): int { if d.until.Some? then d.until.value else 0 }

  lemma NoneMeetMeansOneAt(db: Db, r: Id, now: Now)
    requires NoneMeet(db, r)
    ensures OneAt(CachedPeriods(r, ActivePeriods(db, r)), now)
  {
    var active := ActivePeriods(db, r);
    forall a, b | a in CachedPeriods(r, active) && b in CachedPeriods(r, active) && Matches(a, now) && Matches(b, now) ensures a == b {
      var p :| p in active && a == InCache(r, p, active[p]);
      var q :| q in active && b == InCache(r, q, active[q]);
      if p != q { MatchingMeet(r, p, q, active[p], active[q], now); }
    }
  }

  lemma AlwaysAlikeMeansNoneMeet(db: Db, r: Id)
    requires RowsOf(db, r).Some? && forall p :: p in db.periods ==> PeriodChecks(db.periods[p])
    requires forall last, now :: !Overridden(DesiredOf(db, r), now) ==> Alike(r, RowsOf(db, r).value, last, now)
    ensures NoneMeet(db, r)
  {
    var rows, active := RowsOf(db, r).value, ActivePeriods(db, r);
    forall p, q | p in active && q in active && p != q ensures !Meet(db.periods[p], db.periods[q]) {
      assert InCache(r, p, active[p]) in CachedPeriods(r, active) && InCache(r, q, active[q]) in CachedPeriods(r, active);
      if Meet(db.periods[p], db.periods[q]) {
        var now := MeetingMinute(r, p, q, active[p], active[q], Expired(rows.desired));
        assert Alike(r, rows, None, now);
        AlikeExactly(r, rows, None, now);
      }
    }
  }

  /** For the tables of any run: every entry for the room, in whatever order
      its rows came, resolves alike at every tick not manually overridden,
      exactly when no two active periods share a day and a minute of it. */
  lemma OrderIndependenceExactly(ops: seq<Op>, r: Id)
    requires RowsOf(Run(EMPTY_DB, ops), r).Some?
    ensures var db := Run(EMPTY_DB, ops);
      (forall last, now :: !Overridden(DesiredOf(db, r), now) ==> Alike(r, RowsOf(db, r).value, last, now)) <==> NoneMeet(db, r)
  {
    var db := Run(EMPTY_DB, ops);
    EmptyValid();
    RunValid(EMPTY_DB, ops);
    if NoneMeet(db, r) {
      forall last, now | !Overridden(DesiredOf(db, r), now) ensures Alike(r, RowsOf(db, r).value, last, now) {
        NoneMeetMeansOneAt(db, r, now);
        AlikeExactly(r, RowsOf(db, r).value, last, now);
      }
    }
    if forall last, now :: !Overridden(DesiredOf(db, r), now) ==> Alike(r, RowsOf(db, r).value, last, now) {
      AlwaysAlikeMeansNoneMeet(db, r);
    }
  }

  /** A period of the tables is in force at some minute of the day exactly when
      its times are in clock order; the API compares them as text. */
  lemma InForceExactly(p: PeriodScan)
    requires PeriodChecks(p.row)
    ensures (exists now: Now :: 0 <= now.minute < 1440 && Matches(CachePeriod(p), now)) <==> Minutes(p.row.start) < Minutes(p.row.end)
  {
    AcceptedParses(p.row.start);
    AcceptedParses(p.row.end);
    if Minutes(p.row.start) < Minutes(p.row.end) {
      var d := SomeMember(p.row.days);
      assert Matches(CachePeriod(p), Now(0, d, Minutes(p.row.start)));
    }
  }

  // ---------------------------------------------------------------------
  // Hours without a leading zero
  // ---------------------------------------------------------------------

  const NINE_TO_HALF_PAST := PeriodInput([1], "9:00", "9:30", Auto, Targets(Some(20.0), None))
  const TEN_TO_NINE := PeriodInput([1], "10:00", "9:00", Auto, Targets(Some(20.0), None))
  const HALF_PAST_NINE_TO_TEN := PeriodInput([1], "9:30", "10:00", Off, NO_TARGETS)

  lemma ShortClockText(s: string, h: char, m1: char, m2: char)
    requires s == [h, ':', m1, m2] && IsDigit(h) && IsDigit(m1) && IsDigit(m2) && 10 * Digit(m1) + Digit(m2) < 60
    ensures Accepted(s) && Minutes(s) == 60 * Digit(h) + 10 * Digit(m1) + Digit(m2)
  {
  }

  lemma ShortTimes()
    ensures Accepted("9:00") && Accepted("9:30") && Minutes("9:00") == 540 && Minutes("9:30") == 570
    ensures LexLess("9:00", "9:30") && LexLess("10:00", "9:00")
    ensures !LexLess("9:00", "10:00") && !LexLess("9:30", "10:00")
  {
    ShortClockText("9:00", '9', '0', '0');
    ShortClockText("9:30", '9', '3', '0');
    LexAt("9:00", "9:30", 2);
    LexAt("10:00", "9:00", 0);
    LexAt("9:00", "10:00", 0);
    LexAt("9:30", "10:00", 0);
  }

  /** The API accepts a period from 10:00 to 9:00, which is never in force, and
      refuses one from 9:30 to 10:00. */
  lemma ClockOrderMisjudged()
    ensures AllDone(EMPTY_DB, SmallRun(TEN_TO_NINE))
    ensures var db := Run(EMPTY_DB, SmallRun(TEN_TO_NINE));
      && 4 in ActivePeriods(db, 1) && db.periods[4] == ToRow(2, TEN_TO_NINE)
      && forall now: Now :: !Matches(InCache(1, 4, db.periods[4]), now)
    ensures CreatePeriod(Run(EMPTY_DB, SmallRun(TEN_TO_NINE)), 2, 0, HALF_PAST_NINE_TO_TEN).reply == Failed(InvalidTimeRange)
  {
    TenToNineFits();
    SmallRunFollowed(TEN_TO_NINE);
    NeverInForce();
    HalfPastRefused(SmallDb(TEN_TO_NINE, 6));
  }

  lemma TenToNineFits()
    ensures Fits(TEN_TO_NINE)
  {
    ShortTimes();
    NineToTen();
    LexIrreflexive("10:00");
  }

  lemma NeverInForce()
    ensures forall now: Now :: !Matches(InCache(1, 4, ToRow(2, TEN_TO_NINE)), now)
  {
    ShortTimes();
    NineToTen();
    AcceptedParses("10:00");
    AcceptedParses("9:00");
  }

  lemma HalfPastRefused(db: Db)
    requires OwnsSchedule(db, 2, 0)
    ensures CreatePeriod(db, 2, 0, HALF_PAST_NINE_TO_TEN).reply == Failed(InvalidTimeRange)
  {
    ShortTimes();
    NineToTen();
  }

  lemma UnpaddedFits()
    ensures Fits(NINE_TO_HALF_PAST)
  {
    ShortTimes();
  }

  /** The accepted hours without a leading zero defeat the overlap check: every
      request of the run is accepted, two active periods meet, and Monday 09:10
      resolves to OFF or to AUTO depending on the order the query returned. */
  lemma UnpaddedOrderMatters()
    ensures AllDone(EMPTY_DB, SmallRun(NINE_TO_HALF_PAST))
    ensures RowsOf(Run(EMPTY_DB, SmallRun(NINE_TO_HALF_PAST)), 1).Some?
    ensures !NoneMeet(Run(EMPTY_DB, SmallRun(NINE_TO_HALF_PAST)), 1)
    ensures exists a, b ::
      && Describes(a, 1, RowsOf(Run(EMPTY_DB, SmallRun(NINE_TO_HALF_PAST)), 1).value)
      && Describes(b, 1, RowsOf(Run(EMPTY_DB, SmallRun(NINE_TO_HALF_PAST)), 1).value)
      && Resolve(a, None, MONDAY_TEN_PAST_NINE).mode == Off && Resolve(b, None, MONDAY_TEN_PAST_NINE).mode == Auto
  {
    UnpaddedFits();
    SmallRunFollowed(NINE_TO_HALF_PAST);
    UnpaddedRows();
    UnpaddedMeet();
    var a, b := UnpaddedEntries(RowsOf(SmallDb(NINE_TO_HALF_PAST, 6), 1).value);
  }

  const MONDAY_TEN_PAST_NINE := Now(0, 1, 550)

  lemma UnpaddedRows()
    ensures var db := SmallDb(NINE_TO_HALF_PAST, 6);
      && RowsOf(db, 1).Some? && ActivePeriods(db, 1) == db.periods && RowsOf(db, 1).value.periods == db.periods
      && db.periods == map[3 := ToRow(2, NINE_TO_TEN), 4 := ToRow(2, NINE_TO_HALF_PAST)]
      && RowsOf(db, 1).value.desired == DesiredRow(Off, false, NO_TARGETS, None)
  {
  }

  lemma UnpaddedMinutes()
    ensures MinutesOf("09:00") == 540 && MinutesOf("10:00") == 600 && MinutesOf("9:00") == 540 && MinutesOf("9:30") == 570
  {
    ShortTimes();
    NineToTen();
    AcceptedParses("09:00");
    AcceptedParses("10:00");
    AcceptedParses("9:00");
    AcceptedParses("9:30");
  }

  lemma UnpaddedMeet()
    ensures Meet(ToRow(2, NINE_TO_TEN), ToRow(2, NINE_TO_HALF_PAST))
    ensures Matches(InCache(1, 3, ToRow(2, NINE_TO_TEN)), MONDAY_TEN_PAST_NINE)
    ensures Matches(InCache(1, 4, ToRow(2, NINE_TO_HALF_PAST)), MONDAY_TEN_PAST_NINE)
    ensures !NoneMeet(SmallDb(NINE_TO_HALF_PAST, 6), 1)
  {
    UnpaddedMinutes();
    assert 1 in ToRow(2, NINE_TO_TEN).days * ToRow(2, NINE_TO_HALF_PAST).days;
    UnpaddedRows();
    assert 3 in ActivePeriods(SmallDb(NINE_TO_HALF_PAST, 6), 1) && 4 in ActivePeriods(SmallDb(NINE_TO_HALF_PAST, 6), 1);
  }

  lemma UnpaddedEntries(rows: RoomRows) returns (a: RoomConfig, b: RoomConfig)
    requires rows.periods == map[3 := ToRow(2, NINE_TO_TEN), 4 := ToRow(2, NINE_TO_HALF_PAST)]
    requires rows.desired == DesiredRow(Off, false, NO_TARGETS, None)
    ensures Describes(a, 1, rows) && Describes(b, 1, rows)
    ensures Resolve(a, None, MONDAY_TEN_PAST_NINE).mode == Off && Resolve(b, None, MONDAY_TEN_PAST_NINE).mode == Auto
  {
    var p, q := InCache(1, 3, rows.periods[3]), InCache(1, 4, rows.periods[4]);
    var all := CachedPeriods(1, rows.periods);
    assert p in all && q in all;
    UnpaddedMeet();
    var s := EnumerationFrom(all, p);
    var t := EnumerationFrom(all, q);
    a := EntryWithPeriods(1, rows, s);
    b := EntryWithPeriods(1, rows, t);
    assert FirstMatch(a.periods, MONDAY_TEN_PAST_NINE) == Some(p) && FirstMatch(b.periods, MONDAY_TEN_PAST_NINE) == Some(q);
  }
}
