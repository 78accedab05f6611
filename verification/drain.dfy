/** drainPending: when it ends, and what it has dispatched by then. */
module Draining {
  import opened Base
  import opened Tables
  import opened Api
  import opened Stream
  import opened Cache
  import opened Appdb
  import opened Loading
  import opened Consuming
  import opened Wire

  /** `acks(k, i)`: in round `k`, entry `i` is handled and its XACK succeeds. */
  type Acks = (nat, nat) -> bool

  function Batch(pel: set<nat>, read: nat): seq<nat> { First(PendingList(pel, read), COUNT) }

  function Acked(batch: seq<nat>, ok: nat -> bool): set<nat> { set i | i in batch && ok(i) }

  function AfterRound(pel: set<nat>, read: nat, ok: nat -> bool): set<nat> { pel - Acked(Batch(pel, read), ok) }

  function InRound(acks: Acks, k: nat): nat -> bool { (i: nat) => acks(k, i) }

  /** The pending list after `k` rounds of read and dispatch. */
  function AfterRounds(pel: set<nat>, read: nat, acks: Acks, k: nat): set<nat> {
    if k == 0 then pel
    else AfterRound(AfterRounds(pel, read, acks, k - 1), read, InRound(acks, k - 1))
  }

  /** The entries dispatched in the first `k` rounds, in order. */
  function Dispatched(pel: set<nat>, read: nat, acks: Acks, k: nat): seq<nat> {
    if k == 0 then []
    else Dispatched(pel, read, acks, k - 1) + Batch(AfterRounds(pel, read, acks, k - 1), read)
  }

  ghost predicate Delivered(pel: set<nat>, read: nat) { forall i :: i in pel ==> i < read }

  lemma PendingListed(pel: set<nat>, read: nat)
    requires Delivered(pel, read)
    ensures Enumerates(PendingList(pel, read), pel)
  {
    var all := Range(0, read);
    FilterMembers(all, Within(pel));
    FilterDistinct(all, Within(pel));
    forall i | i in pel ensures i in PendingList(pel, read) { assert all[i] == i; }
  }

  lemma BatchOfPending(pel: set<nat>, read: nat)
    requires Delivered(pel, read)
    ensures forall i :: i in Batch(pel, read) ==> i in pel
    ensures pel != {} ==> Batch(pel, read) != []
  {
    PendingListed(pel, read);
    var l := PendingList(pel, read);
    if |l| > COUNT { assert forall i :: i in l[..COUNT] ==> i in l; }
    if i :| i in pel { assert i in l; }
  }

  predicate SomeAck(pel: set<nat>, read: nat, ok: nat -> bool) { exists i :: i in Batch(pel, read) && ok(i) }

  /** If round `k` reads any entries, at least one is acknowledged. */
  predicate RoundAcks(pel: set<nat>, read: nat, acks: Acks, k: nat) {
    var left := AfterRounds(pel, read, acks, k);
    left == {} || SomeAck(left, read, InRound(acks, k))
  }

  ghost predicate Progress(pel: set<nat>, read: nat, acks: Acks) {
    forall k: nat :: RoundAcks(pel, read, acks, k)
  }

  lemma {:induction false} RoundsShrink(pel: set<nat>, read: nat, acks: Acks, k: nat)
    requires Delivered(pel, read)
    ensures AfterRounds(pel, read, acks, k) <= pel && Delivered(AfterRounds(pel, read, acks, k), read)
  {
    if k > 0 { RoundsShrink(pel, read, acks, k - 1); }
  }

  lemma {:induction false} GoneWasDispatched(pel: set<nat>, read: nat, acks: Acks, k: nat, i: nat)
    requires i in pel && i !in AfterRounds(pel, read, acks, k)
    ensures i in Dispatched(pel, read, acks, k)
  {
    if k > 0 && i !in AfterRounds(pel, read, acks, k - 1) { GoneWasDispatched(pel, read, acks, k - 1, i); }
  }

  lemma BatchInList(pel: set<nat>, read: nat)
    ensures forall i :: i in Batch(pel, read) ==> i in pel
  {
    var l := PendingList(pel, read);
    FilterMembers(Range(0, read), Within(pel));
    assert forall i :: i in First(l, COUNT) ==> i in l;
  }

  lemma RoundShrinks(pel: set<nat>, read: nat, ok: nat -> bool)
    requires pel == {} || SomeAck(pel, read, ok)
    ensures Shrunk(AfterRound(pel, read, ok), 1, |pel|)
  {
    BatchInList(pel, read);
    if pel != {} {
      var i :| i in Batch(pel, read) && ok(i);
      Smaller(AfterRound(pel, read, ok), pel - {i});
    }
  }

  predicate Shrunk(left: set<nat>, k: nat, n: nat) { left == {} || |left| + k <= n }

  lemma {:induction false} RoundsProgress(pel: set<nat>, read: nat, acks: Acks, k: nat)
    requires Progress(pel, read, acks)
    ensures Shrunk(AfterRounds(pel, read, acks, k), k, |pel|)
  {
    if k > 0 {
      RoundsProgress(pel, read, acks, k - 1);
      assert RoundAcks(pel, read, acks, k - 1);
      RoundShrinks(AfterRounds(pel, read, acks, k - 1), read, InRound(acks, k - 1));
    }
  }

  lemma {:induction false} Smaller(a: set<nat>, b: set<nat>)
    requires a <= b
    ensures |a| <= |b|
  {
    if a != {} {
      var x :| x in a;
      Smaller(a - {x}, b - {x});
    }
  }

  /** Then the list is empty after at most as many rounds as it had entries,
      and every entry was dispatched. */
  lemma DrainTerminates(pel: set<nat>, read: nat, acks: Acks)
    requires Delivered(pel, read) && Progress(pel, read, acks)
    ensures AfterRounds(pel, read, acks, |pel|) == {}
    ensures forall i :: i in pel ==> i in Dispatched(pel, read, acks, |pel|)
  {
    RoundsProgress(pel, read, acks, |pel|);
    forall i | i in pel ensures i in Dispatched(pel, read, acks, |pel|) { GoneWasDispatched(pel, read, acks, |pel|, i); }
  }

  // With every acknowledgement succeeding.

  lemma {:induction false} FilterTwice(s: seq<nat>, p: nat -> bool, q: nat -> bool, both: nat -> bool)
    requires forall x :: both(x) <==> p(x) && q(x)
    ensures Filter(s, both) == Filter(Filter(s, p), q)
  {
    if s != [] { FilterTwice(s[1..], p, q, both); }
  }

  function Outside(s: seq<nat>): nat -> bool { (i: nat) => i !in s }

  /** Acknowledging a whole batch leaves the rest of the list, in order. */
  lemma BatchGone(pel: set<nat>, read: nat, ok: nat -> bool)
    requires Delivered(pel, read) && forall i :: i in Batch(pel, read) ==> ok(i)
    ensures PendingList(pel, read) == Batch(pel, read) + PendingList(AfterRound(pel, read, ok), read)
  {
    var l, b := PendingList(pel, read), Batch(pel, read);
    var rest := l[|b|..];
    assert l == b + rest;
    PendingListed(pel, read);
    FilterTwice(Range(0, read), Within(pel), Outside(b), Within(AfterRound(pel, read, ok)));
    FilterConcat(b, rest, Outside(b));
    FilterNone(b, Outside(b));
    RestOutside(l, |b|);
    FilterAll(rest, Outside(b));
  }

  lemma RestOutside(l: seq<nat>, n: nat)
    requires Distinct(l) && n <= |l|
    ensures forall k :: 0 <= k < |l[n..]| ==> Outside(l[..n])(l[n..][k])
  {
  }

  lemma {:induction false} DispatchedSoFar(pel: set<nat>, read: nat, acks: Acks, k: nat)
    requires Delivered(pel, read) && forall j, i :: acks(j, i)
    ensures Dispatched(pel, read, acks, k) + PendingList(AfterRounds(pel, read, acks, k), read) == PendingList(pel, read)
  {
    if k > 0 {
      DispatchedSoFar(pel, read, acks, k - 1);
      RoundsShrink(pel, read, acks, k - 1);
      BatchGone(AfterRounds(pel, read, acks, k - 1), read, InRound(acks, k - 1));
    }
  }

  /** With every acknowledgement succeeding, a drain that has emptied the list
      dispatched each entry exactly once, in id order. */
  lemma DrainOnceInOrder(pel: set<nat>, read: nat, acks: Acks, k: nat)
    requires Delivered(pel, read) && (forall j, i :: acks(j, i)) && AfterRounds(pel, read, acks, k) == {}
    ensures Dispatched(pel, read, acks, k) == PendingList(pel, read)
    ensures Enumerates(Dispatched(pel, read, acks, k), pel)
  {
    DispatchedSoFar(pel, read, acks, k);
    FilterNone(Range(0, read), Within({}));
    PendingListed(pel, read);
  }

  // ---------------------------------------------------------------------
  // The loop
  // ---------------------------------------------------------------------

  /** What the `k`-th read finds outside when it dispatches entry `i`. */
  type Worlds = (nat, nat) -> World

  function AcksOf(stream: seq<Event>, world: Worlds): Acks {
    (k: nat, i: nat) => i < |stream| && Handled(stream[i], world(k, i)) && world(k, i).ackOk
  }

  lemma {:induction false} StuckStays(pel: set<nat>, read: nat, acks: Acks, k: nat, i: nat)
    requires i in pel && forall j: nat :: !acks(j, i)
    ensures i in AfterRounds(pel, read, acks, k)
  {
    if k > 0 { StuckStays(pel, read, acks, k - 1, i); }
  }

  /** No round acknowledges a malformed entry, whatever database and server
      answer: it is read again in every round. */
  lemma MalformedStays(pel: set<nat>, read: nat, stream: seq<Event>, world: Worlds, k: nat)
    ensures forall i :: i in pel && i < |stream| && Malformed(stream[i]) ==> i in AfterRounds(pel, read, AcksOf(stream, world), k)
  {
    forall i | i in pel && i < |stream| && Malformed(stream[i]) ensures i in AfterRounds(pel, read, AcksOf(stream, world), k) {
      var acks := AcksOf(stream, world);
      forall j: nat ensures !acks(j, i) { assert !Handled(stream[i], world(j, i)); }
      StuckStays(pel, read, acks, k, i);
    }
  }

  /** The database answers with rows that load, and every XACK goes through. */
  ghost predicate AllAnswer(world: Worlds) {
    forall k: nat, i: nat :: world(k, i).dbOk && world(k, i).ackOk && forall r :: CanLoad(world(k, i).db, r, world(k, i).zones)
  }

  lemma AnsweredMeansHandled(stream: seq<Event>, world: Worlds, k: nat, i: nat)
    requires AllAnswer(world) && i < |stream|
    ensures AcksOf(stream, world)(k, i) <==> !Malformed(stream[i])
  {
    assert world(k, i).dbOk && world(k, i).ackOk;
  }

  /** With all reads and acknowledgements succeeding, the drain ends exactly if
      no pending entry is malformed. */
  lemma DrainEndsExactly(pel: set<nat>, read: nat, stream: seq<Event>, world: Worlds)
    requires Delivered(pel, read) && read <= |stream| && AllAnswer(world)
    ensures (exists k: nat :: AfterRounds(pel, read, AcksOf(stream, world), k) == {})
       <==> forall i :: i in pel ==> !Malformed(stream[i])
  {
    var acks := AcksOf(stream, world);
    if forall i :: i in pel ==> !Malformed(stream[i]) {
      forall k: nat ensures RoundAcks(pel, read, acks, k) {
        RoundsShrink(pel, read, acks, k);
        var left := AfterRounds(pel, read, acks, k);
        BatchOfPending(left, read);
        if left != {} {
          var i := Batch(left, read)[0];
          assert i in left;
          AnsweredMeansHandled(stream, world, k, i);
          assert i in Batch(left, read) && InRound(acks, k)(i);
        }
      }
      DrainTerminates(pel, read, acks);
    }
    if k: nat :| AfterRounds(pel, read, acks, k) == {} {
      MalformedStays(pel, read, stream, world, k);
    }
  }

  /** In terms of the stream's entries: it ends exactly if none of the pending
      ones is of a known event and lacks a room_id that parses or, being about
      a device, a hw_id. */
  lemma DrainEndsForEntries(pel: set<nat>, read: nat, entries: seq<Fields>, parse: Parser, world: Worlds)
    requires Delivered(pel, read) && read <= |entries| && AllAnswer(world)
    ensures (exists k: nat :: AfterRounds(pel, read, AcksOf(Decoded(entries, parse), world), k) == {})
       <==> forall i :: i in pel ==> !Unreadable(entries[i], parse)
  {
    DrainEndsExactly(pel, read, Decoded(entries, parse), world);
    DecodedMalformed(entries, parse);
  }

  lemma UnreadableStays(pel: set<nat>, read: nat, entries: seq<Fields>, parse: Parser, world: Worlds, k: nat)
    ensures forall i :: i in pel && i < |entries| && Unreadable(entries[i], parse) ==>
      i in AfterRounds(pel, read, AcksOf(Decoded(entries, parse), world), k)
  {
    MalformedStays(pel, read, Decoded(entries, parse), world, k);
    DecodedMalformed(entries, parse);
  }

  ghost predicate HwIdsUnique(world: Worlds) {
    forall k: nat, i: nat :: UniqueBy(world(k, i).db.devices, HwKey)
  }

  lemma RoundAdded(before: seq<nat>, pel: set<nat>, read: nat, acks: Acks, k: nat)
    ensures before + Dispatched(pel, read, acks, k) + Batch(AfterRounds(pel, read, acks, k), read)
         == before + Dispatched(pel, read, acks, k + 1)
    ensures AfterRound(AfterRounds(pel, read, acks, k), read, InRound(acks, k)) == AfterRounds(pel, read, acks, k + 1)
  {
  }

  /** drainPending. Read number `failAt` fails, if the loop gets that far: the
      context is cancelled at some point at the latest. */
  method DrainPending(
    c: Consumer, entries: seq<Fields>, parse: Parser, read: nat, world: Worlds, failAt: nat, ghost cache: map<Id, Content>)
    returns (rounds: nat)
    requires c.Valid() && Agrees(c.store.rooms, cache) && HwIdsUnique(world)
    requires Delivered(c.pel, read) && read <= |entries|
    modifies c, c.store, c.sched, set x | x in c.sched.started
    ensures c.Valid() && rounds <= failAt
    ensures c.pel == AfterRounds(old(c.pel), read, AcksOf(Decoded(entries, parse), world), rounds)
    ensures c.dispatched == old(c.dispatched) + Dispatched(old(c.pel), read, AcksOf(Decoded(entries, parse), world), rounds)
    ensures c.pel == {} || rounds == failAt
    ensures (exists i :: i in old(c.pel) && Unreadable(entries[i], parse)) ==> rounds == failAt
  {
    rounds := 0;
    ghost var now := cache;
    ghost var stream := Decoded(entries, parse);
    ghost var pel, acks := c.pel, AcksOf(stream, world);
    while rounds < failAt
      invariant c.Valid() && rounds <= failAt && Agrees(c.store.rooms, now) && Delivered(c.pel, read)
      invariant forall x :: x in c.sched.started ==> x in old(c.sched.started) || fresh(x)
      invariant c.pel == AfterRounds(pel, read, acks, rounds)
      invariant c.dispatched == old(c.dispatched) + Dispatched(pel, read, acks, rounds)
      decreases failAt - rounds
    {
      var empty;
      empty, now := DrainRound(c, entries, parse, read, rounds, world, now);
      if empty { break; }
      RoundAdded(old(c.dispatched), pel, read, acks, rounds);
      rounds := rounds + 1;
    }
    UnreadableStays(pel, read, entries, parse, world, rounds);
  }

  /** One read of the pending list and, if it is not empty, the dispatch of
      what was read. */
  method DrainRound(
    c: Consumer, entries: seq<Fields>, parse: Parser, read: nat, round: nat, world: Worlds, ghost cache: map<Id, Content>)
    returns (empty: bool, ghost after: map<Id, Content>)
    requires c.Valid() && Agrees(c.store.rooms, cache) && HwIdsUnique(world)
    requires Delivered(c.pel, read) && read <= |entries|
    modifies c, c.store, c.sched, set x | x in c.sched.started
    ensures c.Valid() && Agrees(c.store.rooms, after)
    ensures forall x :: x in c.sched.started ==> x in old(c.sched.started) || fresh(x)
    ensures empty <==> old(c.pel) == {}
    ensures c.pel <= old(c.pel) && (empty ==> c.pel == {} && c.dispatched == old(c.dispatched))
    ensures c.pel == AfterRound(old(c.pel), read, InRound(AcksOf(Decoded(entries, parse), world), round))
    ensures c.dispatched == old(c.dispatched) + Batch(old(c.pel), read)
  {
    var batch := Batch(c.pel, read);
    BatchOfPending(c.pel, read);
    if batch != [] { assert batch[0] in batch; }
    empty := batch == [];
    after := cache;
    if !empty { after := DispatchBatch(c, entries, parse, batch, round, world, cache); }
  }

  method DispatchBatch(
    c: Consumer, entries: seq<Fields>, parse: Parser, batch: seq<nat>, round: nat, world: Worlds, ghost cache: map<Id, Content>)
    returns (ghost after: map<Id, Content>)
    requires c.Valid() && Agrees(c.store.rooms, cache) && HwIdsUnique(world)
    requires forall i :: i in batch ==> i < |entries|
    modifies c, c.store, c.sched, set x | x in c.sched.started
    ensures c.Valid() && Agrees(c.store.rooms, after)
    ensures forall x :: x in c.sched.started ==> x in old(c.sched.started) || fresh(x)
    ensures c.pel == old(c.pel) - Acked(batch, InRound(AcksOf(Decoded(entries, parse), world), round))
    ensures c.dispatched == old(c.dispatched) + batch
  {
    after := cache;
    for j := 0 to |batch|
      invariant c.Valid() && Agrees(c.store.rooms, after)
      invariant forall x :: x in c.sched.started ==> x in old(c.sched.started) || fresh(x)
      invariant c.pel == old(c.pel) - Acked(batch[..j], InRound(AcksOf(Decoded(entries, parse), world), round))
      invariant c.dispatched == old(c.dispatched) + batch[..j]
    {
      var i := batch[j];
      assert i in batch;
      assert batch[..j + 1] == batch[..j] + [i];
      c.Dispatch(i, entries[i], parse, world(round, i), after);
      after := Handle(after, Decode(entries[i], parse), world(round, i));
    }
    assert batch[..|batch|] == batch;
  }
}
