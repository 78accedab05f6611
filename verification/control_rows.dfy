/** A tick in terms of the database's rows: which row decides, what is commanded
    and what is logged. */
module ControlRows {
  import opened Base
  import opened Times
  import opened Tables
  import opened Cache
  import opened Appdb
  import opened Control

  // ---------------------------------------------------------------------
  // What an entry holds, field by field
  // ---------------------------------------------------------------------

  /** Every period of an entry is the copy of one row of the room's active
      schedule, and every such row has one copy. */
  lemma PeriodsByRow(db: Db, r: Id, c: RoomConfig)
    requires RowsOf(db, r).Some? && Describes(c, r, RowsOf(db, r).value)
    ensures forall i :: 0 <= i < |c.periods| ==>
      c.periods[i].id in ActivePeriods(db, r) && Carries(c.periods[i], c.periods[i].id, db.periods[c.periods[i].id])
    ensures forall i, j :: 0 <= i < j < |c.periods| ==> c.periods[i].id != c.periods[j].id
    ensures forall p :: p in ActivePeriods(db, r) ==> exists x :: x in c.periods && Carries(x, p, db.periods[p])
  {
    var active := ActivePeriods(db, r);
    forall i | 0 <= i < |c.periods|
      ensures c.periods[i].id in active && Carries(c.periods[i], c.periods[i].id, db.periods[c.periods[i].id])
      ensures c.periods[i] == CachePeriod(PeriodScan(c.periods[i].id, r, active[c.periods[i].id]))
    {
      assert c.periods[i] in CachedPeriods(r, active);
      var p :| p in active && c.periods[i] == CachePeriod(PeriodScan(p, r, active[p]));
      CachedCarries(PeriodScan(p, r, active[p]));
    }
    forall p | p in active ensures exists x :: x in c.periods && Carries(x, p, db.periods[p]) {
      var x := CachePeriod(PeriodScan(p, r, active[p]));
      CachedCarries(PeriodScan(p, r, active[p]));
      assert x in CachedPeriods(r, active);
    }
  }

  /** The rest of an entry: the room's own row, its owner's timezone, its
      desired state, and the devices in it. */
  lemma EntryByRow(db: Db, r: Id, c: RoomConfig)
    requires RowsOf(db, r).Some? && Describes(c, r, RowsOf(db, r).value)
    ensures c.roomId == r && c.timezone == db.users[db.rooms[r].user].timezone
    ensures c.deadbandTemp == db.rooms[r].deadbandTemp && c.deadbandHum == db.rooms[r].deadbandHum
    ensures r in db.desired ==> c.desired == db.desired[r]
    ensures r !in db.desired ==> c.desired.mode == Off && !c.desired.manualActive
    ensures forall hw, t :: Known(t) ==>
      (hw in HwIds(c, t) <==>
        exists d :: d in db.devices && db.devices[d].room == Some(r) && t in db.devices[d].actuators && db.devices[d].hwId == hw)
  {
    forall hw, t | Known(t)
      ensures hw in HwIds(c, t) <==>
        exists d :: d in db.devices && db.devices[d].room == Some(r) && t in db.devices[d].actuators && db.devices[d].hwId == hw
    {
      var all := WithActuator(Fixtures(db, r), t);
      assert Enumerates(HwIds(c, t), all);
      if hw in all {
        var d :| d in Fixtures(db, r) && t in Fixtures(db, r)[d].actuators && hw == Fixtures(db, r)[d].hwId;
        assert d in db.devices && db.devices[d].room == Some(r) && t in db.devices[d].actuators;
      }
      if d :| d in db.devices && db.devices[d].room == Some(r) && t in db.devices[d].actuators && db.devices[d].hwId == hw {
        assert d in Fixtures(db, r);
        assert hw in all;
      }
    }
  }

  // ---------------------------------------------------------------------
  // Which row decides
  // ---------------------------------------------------------------------

  /** The row's period is on at this weekday and minute. */
  predicate OnAt(row: PeriodRow, now: Now) {
    Accepted(row.start) && Accepted(row.end) && now.day in row.days && Minutes(row.start) <= now.minute < Minutes(row.end)
  }

  lemma CarriedMatches(x: PeriodCache, p: Id, row: PeriodRow, now: Now)
    requires PeriodChecks(row) && Carries(x, p, row)
    ensures Matches(x, now) <==> OnAt(row, now)
    ensures x.targets == row.targets && x.mode == row.mode
  {
    AcceptedParses(row.start);
    AcceptedParses(row.end);
  }

  /** The decision by the rows. A tick follows the desired state while its
      override lasts; otherwise a period exactly if some period of the room's
      active schedule is on at that weekday and minute, and then one such row
      with the mode and targets stored in it. */
  lemma DecidedByRow(db: Db, r: Id, c: RoomConfig, last: Option<PeriodCache>, now: Now)
    requires RowsOf(db, r).Some? && Describes(c, r, RowsOf(db, r).value) && r in db.desired
    requires forall p :: p in db.periods ==> PeriodChecks(db.periods[p])
    ensures var es, d := Resolve(c, last, now), db.desired[r];
      var manual := d.manualActive && d.until.Some? && now.instant < d.until.value;
      && (manual ==> es == Effective(d.mode, d.targets, ManualOverride, None))
      && (es.source == Schedule <==> !manual && exists p :: p in ActivePeriods(db, r) && OnAt(db.periods[p], now))
      && (es.source == Schedule ==>
            && es.period.Some? && es.period.value.id in ActivePeriods(db, r)
            && var row := db.periods[es.period.value.id];
               es.mode == row.mode && es.targets == row.targets && OnAt(row, now))
  {
    EntryByRow(db, r, c);
    PeriodsByRow(db, r, c);
    FirstMatchFinds(c.periods, now);
    forall p, x | p in ActivePeriods(db, r) && x in c.periods && Carries(x, p, db.periods[p])
      ensures Matches(x, now) <==> OnAt(db.periods[p], now)
      ensures x.targets == db.periods[p].targets && x.mode == db.periods[p].mode
    {
      CarriedMatches(x, p, db.periods[p], now);
    }
    if !Overridden(c.desired, now) && FirstMatch(c.periods, now).Some? {
      var x := FirstMatch(c.periods, now).value;
      assert Carries(x, x.id, db.periods[x.id]);
    }
  }

  // ---------------------------------------------------------------------
  // What is commanded and logged
  // ---------------------------------------------------------------------

  /** A known type is on exactly under AUTO with a target and a fresh mean that
      is below the band, or not above it while the type was last recorded on:
      heaters by temperature, humidifiers by humidity, each by its deadband. */
  lemma CommandedExactly(v: View, now: Now, stale: int)
    ensures var es, c := Resolve(v.config, v.last, now), v.config;
      var temp := FreshMean(ReadingsIn(v.readings, Temperature), now.instant, stale);
      var hum := FreshMean(ReadingsIn(v.readings, Humidity), now.instant, stale);
      && (Commanded(v, now, stale, Heater) <==>
            && es.mode == Auto && es.targets.temp.Some? && temp.Some?
            && (temp.value.mean < es.targets.temp.value - c.deadbandTemp
                || (temp.value.mean <= es.targets.temp.value + c.deadbandTemp && Heater in v.states && v.states[Heater])))
      && (Commanded(v, now, stale, Humidifier) <==>
            && es.mode == Auto && es.targets.hum.Some? && hum.Some?
            && (hum.value.mean < es.targets.hum.value - c.deadbandHum
                || (hum.value.mean <= es.targets.hum.value + c.deadbandHum && Humidifier in v.states && v.states[Humidifier])))
  {
  }

  /** The log row says what the tick saw and decided: mode, source and period
      of the effective state, means and counts of the fresh readings whatever
      the mode, its targets, and a deadband exactly beside a target. */
  lemma LogTellsTheState(v: View, now: Now, stale: int)
    ensures var log, es := LogOf(v, now, stale), Resolve(v.config, v.last, now);
      && log.room == v.config.roomId && log.time == now.instant
      && log.mode == es.mode && log.source == es.source
      && (es.source == Schedule || es.source == GracePeriod ==> es.period.Some? && log.period == Some(es.period.value.id))
      && (es.source == ManualOverride || es.source == NoSource ==> log.period == None)
      && log.temp == FreshMean(ReadingsIn(v.readings, Temperature), now.instant, stale)
      && log.hum == FreshMean(ReadingsIn(v.readings, Humidity), now.instant, stale)
      && log.targetTemp == es.targets.temp && log.targetHum == es.targets.hum
      && (log.deadbandTemp.Some? <==> es.targets.temp.Some?) && (log.deadbandHum.Some? <==> es.targets.hum.Some?)
      && (log.deadbandTemp.Some? ==> log.deadbandTemp.value == v.config.deadbandTemp)
      && (log.deadbandHum.Some? ==> log.deadbandHum.value == v.config.deadbandHum)
  {
  }
}
