/** Telemetry into the readings buffers, and why trimming them on arrival never
    changes a later average. */
module Ingestion {
  import opened Base
  import opened Tables
  import opened Cache
  import opened Control

  // ---------------------------------------------------------------------
  // The buffer of one measure
  // ---------------------------------------------------------------------

  /** Drops the readings at the head that are older than the cutoff. */
  function Trim(rs: seq<Reading>, cutoff: int): seq<Reading> {
    if rs == [] || rs[0].ts >= cutoff then rs else Trim(rs[1..], cutoff)
  }

  method TrimStale(rs: seq<Reading>, now: int, threshold: int) returns (r: seq<Reading>)
    ensures r == Trim(rs, now - threshold)
  {
    var cutoff := now - threshold;
    var i := 0;
    while i < |rs| && rs[i].ts < cutoff
      invariant 0 <= i <= |rs|
      invariant Trim(rs, cutoff) == Trim(rs[i..], cutoff)
    {
      assert rs[i..][1..] == rs[i + 1..];
      i := i + 1;
    }
    return rs[i..];
  }

  function Accept(buffer: seq<Reading>, r: Reading, stale: int): seq<Reading> {
    Trim(buffer + [r], r.ts - stale)
  }

  /** The buffer after the readings of `history` arrived in order. */
  function Buffer(history: seq<Reading>, stale: int): seq<Reading> {
    if history == [] then []
    else Accept(Buffer(history[..|history| - 1], stale), history[|history| - 1], stale)
  }

  lemma {:induction false} TrimIsSuffix(rs: seq<Reading>, cutoff: int) returns (k: nat)
    ensures k <= |rs| && Trim(rs, cutoff) == rs[k..]
    ensures forall i :: 0 <= i < k ==> rs[i].ts < cutoff
    ensures k < |rs| ==> rs[k].ts >= cutoff
  {
    if rs == [] || rs[0].ts >= cutoff {
      k := 0;
    } else {
      k := TrimIsSuffix(rs[1..], cutoff);
      k := k + 1;
    }
  }

  /** Some later message was newer than reading `i` by more than the
      threshold. */
  ghost predicate Outdated(history: seq<Reading>, i: nat, stale: int)
    requires i < |history|
  {
    exists j :: i <= j < |history| && history[i].ts < history[j].ts - stale
  }

  /** `k` is the first reading that is not outdated, or the end. */
  ghost predicate FirstKept(history: seq<Reading>, k: nat, stale: int) {
    && k <= |history|
    && (forall i :: 0 <= i < k ==> Outdated(history, i, stale))
    && (k < |history| ==> !Outdated(history, k, stale))
  }

  /** The buffer is what is left of the whole history after its first readings,
      up to the first one that is not outdated. */
  lemma {:induction false} BufferIsSuffix(history: seq<Reading>, stale: int) returns (k: nat)
    ensures FirstKept(history, k, stale) && Buffer(history, stale) == history[k..]
  {
    if history == [] {
      k := 0;
    } else {
      var n := |history| - 1;
      var init, last := history[..n], history[n];
      var m := BufferIsSuffix(init, stale);
      var grown := history[m..];
      assert Buffer(init, stale) + [last] == grown;
      var d := TrimIsSuffix(grown, last.ts - stale);
      k := m + d;
      assert grown[d..] == history[k..];
      assert forall i :: m <= i <= n ==> history[i] == grown[i - m];
      DroppedOutdated(history, m, k, stale);
      StillKept(history, m, k, stale);
    }
  }

  lemma DroppedOutdated(history: seq<Reading>, m: nat, k: nat, stale: int)
    requires history != [] && FirstKept(history[..|history| - 1], m, stale) && m <= k <= |history|
    requires forall i :: m <= i < k ==> history[i].ts < history[|history| - 1].ts - stale
    ensures forall i :: 0 <= i < k ==> Outdated(history, i, stale)
  {
    var n := |history| - 1;
    forall i | 0 <= i < k ensures Outdated(history, i, stale) {
      if i < m {
        OutdatedGrows(history[..n], history[n], i, stale);
        assert history[..n] + [history[n]] == history;
      } else {
        assert history[i].ts < history[n].ts - stale;
      }
    }
  }

  /** What stays when the newest reading arrives is not outdated, as the head
      of the buffer was not. */
  lemma StillKept(history: seq<Reading>, m: nat, k: nat, stale: int)
    requires history != [] && FirstKept(history[..|history| - 1], m, stale) && m <= k
    requires k < |history| ==> history[k].ts >= history[|history| - 1].ts - stale
    requires m < k ==> history[m].ts < history[|history| - 1].ts - stale
    ensures k < |history| ==> !Outdated(history, k, stale)
  {
    var init := history[..|history| - 1];
    if k < |history| {
      forall j | k <= j < |init| ensures history[k].ts >= history[j].ts - stale {
        assert init[m].ts >= init[j].ts - stale;
      }
    }
  }

  lemma OutdatedGrows(history: seq<Reading>, r: Reading, i: nat, stale: int)
    requires i < |history| && Outdated(history, i, stale)
    ensures Outdated(history + [r], i, stale)
  {
    var j :| i <= j < |history| && history[i].ts < history[j].ts - stale;
    assert (history + [r])[j] == history[j];
  }

  /** Reading `i` and every one before it are outdated. */
  ghost predicate OutdatedUpTo(history: seq<Reading>, i: nat, stale: int)
    requires i < |history|
  {
    forall m :: 0 <= m <= i ==> Outdated(history, m, stale)
  }

  /** At a tick, the trimmed buffer has the same fresh readings as the whole
      history exactly when no fresh reading stands among outdated ones only:
      outdated itself, like all that arrived before it. */
  lemma TrimmingInvisibleExactly(history: seq<Reading>, now: int, stale: int)
    ensures Fresh(Buffer(history, stale), now, stale) == Fresh(history, now, stale)
       <==> forall i :: 0 <= i < |history| && OutdatedUpTo(history, i, stale) ==> !IsFresh(history[i], now, stale)
  {
    var k := BufferIsSuffix(history, stale);
    assert forall i :: 0 <= i < |history| ==> (OutdatedUpTo(history, i, stale) <==> i < k);
    var head := history[..k];
    assert history == head + history[k..];
    FilterConcat(head, history[k..], r => IsFresh(r, now, stale));
    if forall i :: 0 <= i < k ==> !IsFresh(history[i], now, stale) {
      FilterNone(head, r => IsFresh(r, now, stale));
    }
    if i :| 0 <= i < k && IsFresh(history[i], now, stale) {
      FilterMembers(head, r => IsFresh(r, now, stale));
      assert head[i] in Fresh(head, now, stale);
    }
  }

  /** So no tick at or after every timestamp in the history notices the
      trimming: same fresh readings, same average, same count. */
  lemma TrimmingInvisible(history: seq<Reading>, now: int, stale: int)
    requires forall i :: 0 <= i < |history| ==> history[i].ts <= now
    ensures Fresh(Buffer(history, stale), now, stale) == Fresh(history, now, stale)
    ensures FreshMean(Buffer(history, stale), now, stale) == FreshMean(history, now, stale)
  {
    forall i | 0 <= i < |history| && OutdatedUpTo(history, i, stale) ensures !IsFresh(history[i], now, stale) {
      assert Outdated(history, i, stale);
    }
    TrimmingInvisibleExactly(history, now, stale);
  }

  /** A tick that is only not earlier than the last message to arrive may
      notice: with a 90 s threshold, messages stamped 5, 100, 50 leave the
      reading stamped 5 out of an average at 50. */
  lemma OutOfOrderTrimmingShows()
    ensures var h := [Reading(18.0, 5), Reading(20.0, 100), Reading(22.0, 50)];
      Reading(18.0, 5) in Fresh(h, 50, 90) && Reading(18.0, 5) !in Fresh(Buffer(h, 90), 50, 90)
  {
    var a, b, c := Reading(18.0, 5), Reading(20.0, 100), Reading(22.0, 50);
    assert [a][..0] == [] && [a, b][..1] == [a] && [a, b, c][..2] == [a, b];
    assert Buffer([], 90) == [];
    assert Buffer([a], 90) == Trim([] + [a], -85) == [a];
    assert [a, b][1..] == [b];
    assert Buffer([a, b], 90) == Trim([a] + [b], 10) == [b];
    assert Buffer([a, b, c], 90) == Trim([b] + [c], -40) == [b, c];
    FilterMembers([a, b, c], r => IsFresh(r, 50, 90));
    FilterMembers([b, c], r => IsFresh(r, 50, 90));
    assert [a, b, c][0] in Fresh([a, b, c], 50, 90);
  }

  ghost predicate Ordered(history: seq<Reading>) {
    forall i, j :: 0 <= i < j < |history| ==> history[i].ts <= history[j].ts
  }

  /** With timestamps in order the buffer is exactly the readings within the
      threshold of the newest one. */
  lemma OrderedBufferExact(history: seq<Reading>, stale: int)
    requires Ordered(history) && history != [] && stale >= 0
    ensures Buffer(history, stale) == Fresh(history, history[|history| - 1].ts, stale)
  {
    var n := |history| - 1;
    var now := history[n].ts;
    TrimmingInvisible(history, now, stale);
    var k := BufferIsSuffix(history, stale);
    var before := Buffer(history[..n], stale) + [history[n]];
    var d := TrimIsSuffix(before, now - stale);
    assert before[|before| - 1] == history[n];
    var b := Buffer(history, stale);
    assert b == before[d..];
    assert b[0].ts >= now - stale;
    forall i | 0 <= i < |b| ensures IsFresh(b[i], now, stale) {
      assert b[i] == history[k + i] && b[0] == history[k];
    }
    FilterAll(b, r => IsFresh(r, now, stale));
  }

  // ---------------------------------------------------------------------
  // Process
  // ---------------------------------------------------------------------

  datatype Sample = Sample(kind: Measure, value: real)
  datatype Telemetry = Telemetry(hwId: HwId, samples: seq<Sample>, ts: int)
  datatype Written = Written(room: Id, kind: Measure, value: real, ts: int)

  /** The readings a device can have taken: those it has a sensor for. */
  function Resolved(sensors: set<Measure>, samples: seq<Sample>): seq<Sample> {
    Filter(samples, Sensed(sensors))
  }

  function Sensed(sensors: set<Measure>): Sample -> bool { (s: Sample) => s.kind in sensors }
  function OfMeasure(k: Measure): Sample -> bool { (s: Sample) => s.kind == k }
  function ToReading(ts: int): Sample -> Reading { (s: Sample) => Reading(s.value, ts) }
  function ToRow(room: Id, ts: int): Sample -> Written { (s: Sample) => Written(room, s.kind, s.value, ts) }

  function Ingest(m: map<Measure, seq<Reading>>, samples: seq<Sample>, ts: int, stale: int): map<Measure, seq<Reading>> {
    if samples == [] then m
    else
      var s := samples[|samples| - 1];
      var before := Ingest(m, samples[..|samples| - 1], ts, stale);
      before[s.kind := Accept(ReadingsIn(before, s.kind), Reading(s.value, ts), stale)]
  }

  /** The entry a message updates: its device is known, is in a room, and the
      room is cached. */
  function Target(store: Store, hw: HwId): Option<RoomCache>
    reads store, store.devices.Values
  {
    if hw in store.devices && store.devices[hw].room.Some? && store.devices[hw].room.value in store.rooms
    then Some(store.rooms[store.devices[hw].room.value])
    else None
  }

  method Resolve(sensors: set<Measure>, samples: seq<Sample>) returns (resolved: seq<Sample>)
    ensures resolved == Resolved(sensors, samples)
  {
    resolved := [];
    for i := 0 to |samples|
      invariant resolved == Resolved(sensors, samples[..i])
    {
      assert samples[..i + 1] == samples[..i] + [samples[i]];
      FilterConcat(samples[..i], [samples[i]], Sensed(sensors));
      if samples[i].kind in sensors { resolved := resolved + [samples[i]]; }
    }
    assert samples[..|samples|] == samples;
  }

  /** The part of Process under the room's lock. */
  method AppendReadings(readings: ReadingMap, resolved: seq<Sample>, ts: int, stale: int)
    modifies readings
    ensures readings.m == Ingest(old(readings.m), resolved, ts, stale)
  {
    for i := 0 to |resolved|
      invariant readings.m == Ingest(old(readings.m), resolved[..i], ts, stale)
    {
      var s := resolved[i];
      assert resolved[..i + 1][..i] == resolved[..i];
      var trimmed := TrimStale(ReadingsIn(readings.m, s.kind) + [Reading(s.value, ts)], ts, stale);
      readings.m := readings.m[s.kind := trimmed];
    }
    assert resolved[..|resolved|] == resolved;
  }

  method Process(store: Store, msg: Telemetry, stale: int) returns (rows: seq<Written>)
    modifies if Target(store, msg.hwId).Some? then {Target(store, msg.hwId).value.readings} else {}
    ensures old(Target(store, msg.hwId)).None? ==> rows == []
    ensures old(Target(store, msg.hwId)).Some? ==>
      var rc, dc := old(Target(store, msg.hwId)).value, store.devices[msg.hwId];
      var taken := Resolved(dc.sensors, msg.samples);
      && rc.readings.m == Ingest(old(rc.readings.m), taken, msg.ts, stale)
      && rows == Map(taken, ToRow(dc.room.value, msg.ts))
      && |rows| == |taken| && forall i :: 0 <= i < |rows| ==>
        && rows[i].room == dc.room.value && rows[i].kind == taken[i].kind
        && rows[i].value == taken[i].value && rows[i].ts == msg.ts
  {
    rows := [];
    if msg.hwId !in store.devices { return; }
    var dc := store.devices[msg.hwId];
    if dc.room.None? { return; }
    var roomId := dc.room.value;
    if roomId !in store.rooms { return; }
    var rc := store.rooms[roomId];
    var resolved := Resolve(dc.sensors, msg.samples);
    if |resolved| == 0 { return; }
    AppendReadings(rc.readings, resolved, msg.ts, stale);
    rows := Map(resolved, ToRow(roomId, msg.ts));
  }

  /** Per measure, ingesting is accepting that measure's samples in order. */
  lemma {:induction false} IngestBuffers(m: map<Measure, seq<Reading>>, history: seq<Reading>, samples: seq<Sample>, ts: int, stale: int, k: Measure)
    requires ReadingsIn(m, k) == Buffer(history, stale)
    ensures ReadingsIn(Ingest(m, samples, ts, stale), k)
         == Buffer(history + Map(Filter(samples, OfMeasure(k)), ToReading(ts)), stale)
  {
    var of, read := OfMeasure(k), ToReading(ts);
    if samples == [] {
      assert history + Map(Filter(samples, of), read) == history;
    } else {
      var init, last := samples[..|samples| - 1], samples[|samples| - 1];
      assert samples == init + [last];
      IngestBuffers(m, history, init, ts, stale, k);
      FilterConcat(init, [last], of);
      var grown := history + Map(Filter(init, of), read);
      if last.kind == k {
        assert Filter([last], of) == [last];
        assert history + Map(Filter(samples, of), read) == grown + [Reading(last.value, ts)];
        assert (grown + [Reading(last.value, ts)])[..|grown|] == grown;
      } else {
        assert Filter([last], of) == [];
        assert Filter(samples, of) == Filter(init, of);
      }
    }
  }
}
