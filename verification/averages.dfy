/** What the mean of the fresh readings is, reading by reading, and that their
    order does not matter. */
module Averages {
  import opened Base
  import opened Cache
  import opened Control

  lemma {:induction false} SumConcat(a: seq<real>, b: seq<real>)
    ensures Sum(a + b) == Sum(a) + Sum(b)
  {
    if b == [] {
      assert a + b == a;
    } else {
      SumConcat(a, b[..|b| - 1]);
      assert (a + b)[..|a + b| - 1] == a + b[..|b| - 1];
    }
  }

  lemma SumOne(v: real)
    ensures Sum([v]) == v
  {
    assert [v][..0] == [];
  }

  function FreshSum(rs: seq<Reading>, now: int, threshold: int): real {
    Sum(Map(Fresh(rs, now, threshold), ValueOf))
  }

  function FreshCount(rs: seq<Reading>, now: int, threshold: int): nat { |Fresh(rs, now, threshold)| }

  lemma FreshConcat(a: seq<Reading>, b: seq<Reading>, now: int, threshold: int)
    ensures FreshSum(a + b, now, threshold) == FreshSum(a, now, threshold) + FreshSum(b, now, threshold)
    ensures FreshCount(a + b, now, threshold) == FreshCount(a, now, threshold) + FreshCount(b, now, threshold)
  {
    var x, y := Fresh(a, now, threshold), Fresh(b, now, threshold);
    FilterConcat(a, b, r => IsFresh(r, now, threshold));
    assert Map(x + y, ValueOf) == Map(x, ValueOf) + Map(y, ValueOf);
    SumConcat(Map(x, ValueOf), Map(y, ValueOf));
  }

  lemma FreshOne(x: Reading, now: int, threshold: int)
    ensures FreshCount([x], now, threshold) == if now - x.ts <= threshold then 1 else 0
    ensures FreshSum([x], now, threshold) == if now - x.ts <= threshold then x.value else 0.0
  {
    if IsFresh(x, now, threshold) {
      FilterAll([x], r => IsFresh(r, now, threshold));
      assert Fresh([x], now, threshold) == [x] && Map([x], ValueOf) == [x.value];
      SumOne(x.value);
    } else {
      FilterNone([x], r => IsFresh(r, now, threshold));
    }
  }

  /** The mean and the count determine each other's sum. */
  lemma MeanTimesCount(rs: seq<Reading>, now: int, threshold: int)
    ensures FreshMean(rs, now, threshold).None? <==> FreshCount(rs, now, threshold) == 0
    ensures var a := FreshMean(rs, now, threshold);
      a.Some? ==> a.value.count == FreshCount(rs, now, threshold) && a.value.mean * (a.value.count as real) == FreshSum(rs, now, threshold)
  {
  }

  /** One more reading, at the end: a stale one changes nothing; a fresh one
      raises the count by one and the sum by its value. Nothing has no mean. */
  lemma OneMoreReading(rs: seq<Reading>, x: Reading, now: int, threshold: int)
    ensures FreshMean([], now, threshold) == None
    ensures now - x.ts > threshold ==> FreshMean(rs + [x], now, threshold) == FreshMean(rs, now, threshold)
    ensures now - x.ts <= threshold ==>
      var before, after := FreshMean(rs, now, threshold), FreshMean(rs + [x], now, threshold);
      && after.Some?
      && (before.None? ==> after == Some(Average(x.value, 1)))
      && (before.Some? ==>
            && after.value.count == before.value.count + 1
            && after.value.mean * (after.value.count as real) == before.value.mean * (before.value.count as real) + x.value)
  {
    FreshConcat(rs, [x], now, threshold);
    FreshOne(x, now, threshold);
    if now - x.ts > threshold {
      SameMean(rs + [x], rs, now, threshold);
    } else {
      MeanTimesCount(rs, now, threshold);
      MeanTimesCount(rs + [x], now, threshold);
      if FreshCount(rs, now, threshold) == 0 { MeanOfOne(rs + [x], x.value, now, threshold); }
    }
  }

  lemma MeanOfOne(rs: seq<Reading>, v: real, now: int, threshold: int)
    requires FreshCount(rs, now, threshold) == 1 && FreshSum(rs, now, threshold) == v
    ensures FreshMean(rs, now, threshold) == Some(Average(v, 1))
  {
  }

  /** The same count and sum give the same mean. */
  lemma SameMean(a: seq<Reading>, b: seq<Reading>, now: int, threshold: int)
    requires FreshCount(a, now, threshold) == FreshCount(b, now, threshold)
    requires FreshSum(a, now, threshold) == FreshSum(b, now, threshold)
    ensures FreshMean(a, now, threshold) == FreshMean(b, now, threshold)
  {
  }

  lemma {:induction false} SameReadings(a: seq<Reading>, b: seq<Reading>, now: int, threshold: int)
    requires multiset(a) == multiset(b)
    ensures FreshCount(a, now, threshold) == FreshCount(b, now, threshold)
    ensures FreshSum(a, now, threshold) == FreshSum(b, now, threshold)
  {
    if a == [] {
      assert |multiset(b)| == 0;
    } else {
      var n := |a| - 1;
      FreshWithout(a, n, now, threshold);
      assert a[..n] + a[n + 1..] == a[..n];
      assert a[n] in multiset(b);
      var k :| 0 <= k < |b| && b[k] == a[n];
      FreshWithout(b, k, now, threshold);
      SameReadings(a[..n], b[..k] + b[k + 1..], now, threshold);
    }
  }

  lemma FreshWithout(b: seq<Reading>, k: nat, now: int, threshold: int)
    requires k < |b|
    ensures var rest := b[..k] + b[k + 1..];
      && multiset(rest) == multiset(b) - multiset{b[k]}
      && FreshCount(b, now, threshold) == FreshCount(rest, now, threshold) + FreshCount([b[k]], now, threshold)
      && FreshSum(b, now, threshold) == FreshSum(rest, now, threshold) + FreshSum([b[k]], now, threshold)
  {
    assert b == b[..k] + [b[k]] + b[k + 1..];
    FreshConcat(b[..k], b[k + 1..], now, threshold);
    FreshConcat(b[..k], [b[k]], now, threshold);
    FreshConcat(b[..k] + [b[k]], b[k + 1..], now, threshold);
  }

  /** Any order of the same readings has the same mean. */
  lemma OrderOfReadings(a: seq<Reading>, b: seq<Reading>, now: int, threshold: int)
    requires multiset(a) == multiset(b)
    ensures FreshMean(a, now, threshold) == FreshMean(b, now, threshold)
  {
    SameReadings(a, b, now, threshold);
    SameMean(a, b, now, threshold);
  }
}
