/** What the API accepts, the control service can load: WarmCache and every
    reload parse every stored time and find every stored timezone. */
module ApiLoads {
  import opened Base
  import opened Times
  import opened Tables
  import opened Api
  import opened ApiIntegrity
  import opened Appdb
  import opened Loading

  ghost predicate ZonesKnown(db: Db, zones: set<string>) {
    forall u :: u in db.users ==> db.users[u].timezone in zones
  }

  /** The API validates timezones against the same zone database. */
  predicate SameZones(op: Op, zones: set<string>) { op.OpSetTimezone? ==> op.zones <= zones }

  lemma KeepsZones(db: Db, op: Op, zones: set<string>)
    requires ZonesKnown(db, zones) && SameZones(op, zones) && "UTC" in zones
    ensures ZonesKnown(Apply(db, op).db, zones)
  {
  }

  lemma {:induction false} RunKeepsZones(db: Db, ops: seq<Op>, zones: set<string>)
    requires ZonesKnown(db, zones) && "UTC" in zones
    requires forall i :: 0 <= i < |ops| ==> SameZones(ops[i], zones)
    ensures ZonesKnown(Run(db, ops), zones)
    decreases |ops|
  {
    if ops != [] {
      KeepsZones(db, ops[0], zones);
      RunKeepsZones(Apply(db, ops[0]).db, ops[1..], zones);
    }
  }

  lemma ChecksLoad(db: Db, zones: set<string>, r: Id)
    requires Checks(db) && ZonesKnown(db, zones)
    ensures CanLoad(db, r, zones)
  {
    forall p | p in ActivePeriods(db, r) ensures Parses(PeriodScan(p, 0, ActivePeriods(db, r)[p])) {
      AcceptedParses(db.periods[p].start);
      AcceptedParses(db.periods[p].end);
    }
  }

  /** After any run of requests, every room loads. */
  lemma EveryRoomLoads(ops: seq<Op>, zones: set<string>, r: Id)
    requires "UTC" in zones && forall i :: 0 <= i < |ops| ==> SameZones(ops[i], zones)
    ensures CanLoad(Run(EMPTY_DB, ops), r, zones)
  {
    RunValid(EMPTY_DB, ops);
    RunKeepsZones(EMPTY_DB, ops, zones);
    ChecksLoad(Run(EMPTY_DB, ops), zones, r);
  }
}
