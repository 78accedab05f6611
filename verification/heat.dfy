/** A simulated room's heat input: what the actuators contribute, kept as a
    derived sum. */
module Heating {
  import opened Base

  /** Measurement types are strings in the simulator. */
  type Kind = string
  type Rates = map<Kind, real>

  function RateOf(rates: Rates, t: Kind): real { if t in rates then rates[t] else 0.0 }

  /** The contributions' total for one type. Which one is taken first does not
      matter: see SumFrom. */
  ghost function HeatSum(cs: map<string, Rates>, t: Kind): real
    decreases |cs|
  {
    if cs == map[] then 0.0
    else
      var k :| k in cs;
      Fewer(cs, k);
      HeatSum(cs - {k}, t) + RateOf(cs[k], t)
  }

  lemma Fewer<K, V>(m: map<K, V>, k: K)
    requires k in m
    ensures |m - {k}| == |m| - 1
  {
    assert (m - {k}).Keys == m.Keys - {k};
    assert |m| == |m.Keys| && |m - {k}| == |(m - {k}).Keys|;
  }

  lemma {:induction false} SumFrom(cs: map<string, Rates>, k: string, t: Kind)
    requires k in cs
    ensures HeatSum(cs, t) == HeatSum(cs - {k}, t) + RateOf(cs[k], t)
    decreases |cs|
  {
    var first :| first in cs && HeatSum(cs, t) == HeatSum(cs - {first}, t) + RateOf(cs[first], t);
    if first != k {
      Fewer(cs, first);
      Fewer(cs, k);
      SumFrom(cs - {first}, k, t);
      SumFrom(cs - {k}, first, t);
      assert cs - {first} - {k} == cs - {k} - {first};
    }
  }

  class RoomState {
    var current: map<Kind, real>
    const ambient: map<Kind, real>
    var contributions: map<string, Rates>
    var heatInput: Rates

    /** The derived sums are up to date. */
    ghost predicate Valid()
      reads this
    {
      forall t :: RateOf(heatInput, t) == HeatSum(contributions, t)
    }

    constructor (a: map<Kind, real>)
      ensures Valid() && current == a && ambient == a && contributions == map[]
    {
      current, ambient, contributions, heatInput := a, a, map[], map[];
    }

    method SetContribution(key: string, rates: Rates)
      modifies this`contributions, this`heatInput
      ensures Valid() && contributions == old(contributions)[key := rates]
    {
      contributions := contributions[key := rates];
      RecomputeHeatInput();
    }

    method ClearContribution(key: string)
      modifies this`contributions, this`heatInput
      ensures Valid() && contributions == old(contributions) - {key}
    {
      contributions := contributions - {key};
      RecomputeHeatInput();
    }

    /** Both ranges are over Go maps: any order. */
    method RecomputeHeatInput()
      modifies this`heatInput
      ensures Valid()
    {
      heatInput := map[];
      var todo := contributions.Keys;
      ghost var done: map<string, Rates> := map[];
      while todo != {}
        invariant todo <= contributions.Keys
        invariant done == contributions - todo
        invariant forall t :: RateOf(heatInput, t) == HeatSum(done, t)
        decreases |todo|
      {
        var k :| k in todo;
        ghost var before := done;
        todo := todo - {k};
        done := contributions - todo;
        assert done - {k} == before;
        AddRates(contributions[k]);
        forall t ensures RateOf(heatInput, t) == HeatSum(done, t) { SumFrom(done, k, t); }
      }
      assert done == contributions;
    }

    method AddRates(rates: Rates)
      modifies this`heatInput
      ensures forall t :: RateOf(heatInput, t) == RateOf(old(heatInput), t) + RateOf(rates, t)
    {
      var todo := rates.Keys;
      while todo != {}
        invariant todo <= rates.Keys
        invariant forall t :: RateOf(heatInput, t) == RateOf(old(heatInput), t) + if t in todo then 0.0 else RateOf(rates, t)
        decreases |todo|
      {
        var t :| t in todo;
        heatInput := heatInput[t := RateOf(heatInput, t) + rates[t]];
        todo := todo - {t};
      }
    }
  }

  // ---------------------------------------------------------------------
  // Any number of devices, any order of commands
  // ---------------------------------------------------------------------

  /** One actuator of one device. */
  datatype Actuator = Actuator(hwId: HwId, kind: Kind)

  datatype Switch = On(a: Actuator, rate: real) | OffSwitch(a: Actuator)

  /** The key a contribution is filed under. */
  function KeyOf(a: Actuator): string { a.hwId + "/" + a.kind }

  predicate NoSlash(s: string) { '/' !in s }

  /** Two actuators never share a key, whatever the hardware ids, as long as no
      type name has a slash in it. */
  lemma KeysDiffer(a: Actuator, b: Actuator)
    requires NoSlash(a.kind) && NoSlash(b.kind) && KeyOf(a) == KeyOf(b)
    ensures a == b
  {
    LastSeparator(a.hwId, a.kind, b.hwId, b.kind, '/');
  }

  /** The actuators whose last switch was on, with the rate it carried. */
  function SwitchedOn(history: seq<Switch>): map<Actuator, real> {
    if history == [] then map[]
    else
      var before, last := SwitchedOn(history[..|history| - 1]), history[|history| - 1];
      match last
      case On(a, rate) => before[a := rate]
      case OffSwitch(a) => before - {a}
  }

  /** The rates of the type's actuators, added up. */
  ghost function RateSum(on: map<Actuator, real>, t: Kind): real
    decreases |on|
  {
    if on == map[] then 0.0
    else
      var a :| a in on;
      Fewer(on, a);
      RateSum(on - {a}, t) + if a.kind == t then on[a] else 0.0
  }

  /** The contributions map files exactly the actuators that are on. */
  ghost predicate Files(cs: map<string, Rates>, on: map<Actuator, real>) {
    && (forall a :: a in on ==> NoSlash(a.kind) && KeyOf(a) in cs && cs[KeyOf(a)] == map[a.kind := on[a]])
    && (forall k :: k in cs ==> exists a :: a in on && KeyOf(a) == k)
  }

  lemma ChosenRate(on: map<Actuator, real>, t: Kind) returns (a: Actuator)
    requires on != map[]
    ensures a in on && RateSum(on, t) == RateSum(on - {a}, t) + if a.kind == t then on[a] else 0.0
  {
    a :| a in on && RateSum(on, t) == RateSum(on - {a}, t) + if a.kind == t then on[a] else 0.0;
  }

  lemma FiledStep(cs: map<string, Rates>, on: map<Actuator, real>, a: Actuator, t: Kind)
    requires Files(cs, on) && a in on && HeatSum(cs - {KeyOf(a)}, t) == RateSum(on - {a}, t)
    ensures HeatSum(cs, t) == RateSum(on - {a}, t) + if a.kind == t then on[a] else 0.0
  {
    SumFrom(cs, KeyOf(a), t);
    assert cs[KeyOf(a)] == map[a.kind := on[a]];
  }

  lemma {:induction false} FiledSum(cs: map<string, Rates>, on: map<Actuator, real>, t: Kind)
    requires Files(cs, on)
    ensures HeatSum(cs, t) == RateSum(on, t)
    decreases |on|
  {
    if on == map[] {
      assert forall a :: a !in on;
      assert cs.Keys == {};
    } else {
      var a := ChosenRate(on, t);
      Fewer(on, a);
      FilesWithout(cs, on, a);
      FiledSum(cs - {KeyOf(a)}, on - {a}, t);
      FiledStep(cs, on, a, t);
    }
  }

  lemma FilesWithout(cs: map<string, Rates>, on: map<Actuator, real>, a: Actuator)
    requires Files(cs, on) && a in on
    ensures Files(cs - {KeyOf(a)}, on - {a})
  {
    forall b | b in on - {a} ensures KeyOf(b) != KeyOf(a) {
      if KeyOf(b) == KeyOf(a) { KeysDiffer(a, b); }
    }
    forall k | k in cs - {KeyOf(a)} ensures exists b :: b in on - {a} && KeyOf(b) == k {
      var b :| b in on && KeyOf(b) == k;
      assert b in on - {a};
    }
  }

  lemma FilesWith(cs: map<string, Rates>, on: map<Actuator, real>, a: Actuator, rate: real)
    requires Files(cs, on) && NoSlash(a.kind)
    ensures Files(cs[KeyOf(a) := map[a.kind := rate]], on[a := rate])
  {
    forall b | b in on && b != a ensures KeyOf(b) != KeyOf(a) {
      if KeyOf(b) == KeyOf(a) { KeysDiffer(a, b); }
    }
    var cs' := cs[KeyOf(a) := map[a.kind := rate]];
    forall k | k in cs' ensures exists b :: b in on[a := rate] && KeyOf(b) == k {
      if k == KeyOf(a) {
        assert a in on[a := rate];
      } else {
        var b :| b in on && KeyOf(b) == k;
        assert b in on[a := rate];
      }
    }
  }

  lemma FilesUnlisted(cs: map<string, Rates>, on: map<Actuator, real>, a: Actuator)
    requires Files(cs, on) && NoSlash(a.kind) && a !in on
    ensures cs - {KeyOf(a)} == cs && on - {a} == on
  {
    if KeyOf(a) in cs {
      var b :| b in on && KeyOf(b) == KeyOf(a);
      KeysDiffer(a, b);
    }
  }

  /** Conservation: after any interleaving of commands from any number of
      devices, each type's heat input is the sum of the rates of that type's
      actuators whose last command was on. */
  method PlaySwitches(state: RoomState, history: seq<Switch>)
    requires state.Valid() && state.contributions == map[]
    requires forall i :: 0 <= i < |history| ==> NoSlash(history[i].a.kind)
    modifies state`contributions, state`heatInput
    ensures state.Valid() && Files(state.contributions, SwitchedOn(history))
    ensures forall t :: RateOf(state.heatInput, t) == RateSum(SwitchedOn(history), t)
  {
    for i := 0 to |history|
      invariant state.Valid() && Files(state.contributions, SwitchedOn(history[..i]))
    {
      assert history[..i + 1][..i] == history[..i];
      ghost var cs, on := state.contributions, SwitchedOn(history[..i]);
      match history[i] {
        case On(a, rate) =>
          FilesWith(cs, on, a, rate);
          state.SetContribution(KeyOf(a), map[a.kind := rate]);
        case OffSwitch(a) =>
          if a in on { FilesWithout(cs, on, a); } else { FilesUnlisted(cs, on, a); }
          state.ClearContribution(KeyOf(a));
      }
    }
    assert history[..|history|] == history;
    forall t ensures RateOf(state.heatInput, t) == RateSum(SwitchedOn(history), t) {
      FiledSum(state.contributions, SwitchedOn(history), t);
    }
  }
}
