/** Types and sequence facts shared by every module of the model. */
module Base {

  datatype Option<+T> = None | Some(value: T)

  /** A UUID. Row ids are only ever compared and drawn fresh. */
  type Id = nat
  type HwId = string

  datatype Measure = Temperature | Humidity | AirQuality
  datatype ActuatorType = Heater | Humidifier | OtherActuator(name: string)
  datatype Mode = Off | Auto

  /** The actuator types the system knows: those of actuatorSensorTypes and
      validActuatorTypes. */
  predicate Known(a: ActuatorType) { a == Heater || a == Humidifier }

  /** The two optional target values of a desired state or schedule period. */
  datatype Targets = Targets(temp: Option<real>, hum: Option<real>)

  const NO_TARGETS := Targets(None, None)

  /** The elements of `s` that satisfy `p`, in their order in `s`. */
  function Filter<T>(s: seq<T>, p: T -> bool): seq<T> {
    if s == [] then []
    else if p(s[0]) then [s[0]] + Filter(s[1..], p)
    else Filter(s[1..], p)
  }

  lemma {:induction false} FilterConcat<T>(a: seq<T>, b: seq<T>, p: T -> bool)
    ensures Filter(a + b, p) == Filter(a, p) + Filter(b, p)
  {
    if a == [] {
      assert a + b == b;
    } else {
      assert (a + b)[1..] == a[1..] + b;
      FilterConcat(a[1..], b, p);
    }
  }

  lemma {:induction false} FilterNone<T>(s: seq<T>, p: T -> bool)
    requires forall k :: 0 <= k < |s| ==> !p(s[k])
    ensures Filter(s, p) == []
  {
    if s != [] { FilterNone(s[1..], p); }
  }

  lemma {:induction false} FilterAll<T>(s: seq<T>, p: T -> bool)
    requires forall k :: 0 <= k < |s| ==> p(s[k])
    ensures Filter(s, p) == s
  {
    if s != [] {
      FilterAll(s[1..], p);
      assert s == [s[0]] + s[1..];
    }
  }

  function Larger(a: real, b: real): real { if a >= b then a else b }

  function Sum(s: seq<real>): real {
    if s == [] then 0.0 else Sum(s[..|s| - 1]) + s[|s| - 1]
  }

  ghost predicate Distinct<T>(s: seq<T>) {
    forall i, j :: 0 <= i < j < |s| ==> s[i] != s[j]
  }

  /** `s` lists the members of `all`, each once, in some order: the rows of an
      SQL query without ORDER BY. */
  ghost predicate Enumerates<T>(s: seq<T>, all: set<T>) {
    && Distinct(s)
    && (forall i :: 0 <= i < |s| ==> s[i] in all)
    && (forall x :: x in all ==> x in s)
  }

  lemma {:induction false} FilterMembers<T>(s: seq<T>, p: T -> bool)
    ensures forall i :: 0 <= i < |Filter(s, p)| ==> Filter(s, p)[i] in s && p(Filter(s, p)[i])
    ensures forall i :: 0 <= i < |s| && p(s[i]) ==> s[i] in Filter(s, p)
  {
    if s != [] {
      FilterMembers(s[1..], p);
      assert s == [s[0]] + s[1..];
    }
  }

  lemma {:induction false} FilterDistinct<T>(s: seq<T>, p: T -> bool)
    requires Distinct(s)
    ensures Distinct(Filter(s, p))
  {
    if s != [] {
      FilterDistinct(s[1..], p);
      FilterMembers(s[1..], p);
      assert s[0] !in s[1..];
    }
  }

  /** Filtering an enumeration enumerates the filtered set. */
  lemma FilterEnumerates<T>(s: seq<T>, all: set<T>, p: T -> bool)
    requires Enumerates(s, all)
    ensures Enumerates(Filter(s, p), set x | x in all && p(x))
  {
    FilterMembers(s, p);
    FilterDistinct(s, p);
  }

  lemma RemoveOne<T>(s: seq<T>, all: set<T>, k: nat)
    requires Enumerates(s, all) && k < |s|
    ensures Enumerates(s[..k] + s[k + 1..], all - {s[k]})
  {
    var s' := s[..k] + s[k + 1..];
    forall i | 0 <= i < |s'| ensures s'[i] in all - {s[k]} {
      assert s'[i] == s[if i < k then i else i + 1];
    }
    forall x | x in all - {s[k]} ensures x in s' {
      var i :| 0 <= i < |s| && s[i] == x;
      assert s'[if i < k then i else i - 1] == x;
    }
  }

  lemma {:induction false} DistinctCount<T>(s: seq<T>, x: T)
    requires Distinct(s)
    ensures multiset(s)[x] == if x in s then 1 else 0
  {
    if s != [] {
      assert s == [s[0]] + s[1..];
      DistinctCount(s[1..], x);
      assert s[0] !in s[1..];
    }
  }

  lemma SomeMember<T>(all: set<T>) returns (x: T)
    requires all != {}
    ensures x in all
  {
    x :| x in all;
  }

  /** A finite set can be listed starting with any of its members. */
  lemma EnumerationFrom<T>(all: set<T>, first: T) returns (s: seq<T>)
    requires first in all
    ensures Enumerates(s, all) && s[0] == first
    decreases |all|
  {
    var rest := all - {first};
    if rest == {} {
      assert all == {first};
      s := [first];
    } else {
      var x :| x in rest;
      var tail := EnumerationFrom(rest, x);
      s := [first] + tail;
    }
  }

  lemma {:induction false} EnumeratesLength<T>(s: seq<T>, all: set<T>)
    requires Enumerates(s, all)
    ensures |s| == |all|
    decreases |s|
  {
    if s == [] {
      assert all == {};
    } else {
      RemoveOne(s, all, 0);
      EnumeratesLength(s[..0] + s[1..], all - {s[0]});
    }
  }

  /** Two enumerations of one set differ only in order. */
  lemma EnumerationsAgree<T>(s: seq<T>, t: seq<T>, all: set<T>)
    requires Enumerates(s, all) && Enumerates(t, all)
    ensures multiset(s) == multiset(t)
  {
    forall x ensures multiset(s)[x] == multiset(t)[x] {
      DistinctCount(s, x);
      DistinctCount(t, x);
      assert x in s <==> x in all;
      assert x in t <==> x in all;
    }
  }

  function Map<A, B>(s: seq<A>, f: A -> B): (r: seq<B>)
    ensures |r| == |s| && forall i :: 0 <= i < |s| ==> r[i] == f(s[i])
  {
    seq(|s|, i requires 0 <= i < |s| => f(s[i]))
  }

  /** Mapping an enumeration through a function that is one-to-one on the set
      enumerates the image. */
  lemma MapEnumerates<A, B>(s: seq<A>, all: set<A>, f: A -> B)
    requires Enumerates(s, all)
    requires forall x, y :: x in all && y in all && f(x) == f(y) ==> x == y
    ensures Enumerates(Map(s, f), set x | x in all :: f(x))
  {
    var r, image := Map(s, f), set x | x in all :: f(x);
    forall i | 0 <= i < |r| ensures r[i] in image { assert s[i] in all; }
    forall y | y in image ensures y in r {
      var x :| x in all && y == f(x);
      var i :| 0 <= i < |s| && s[i] == x;
      assert r[i] == y;
    }
    forall i, j | 0 <= i < j < |r| ensures r[i] != r[j] {
      assert s[i] in all && s[j] in all && s[i] != s[j];
    }
  }

  /** Any order will do: how an unordered query hands out its rows. */
  method AnyOrder<T(==)>(all: set<T>) returns (s: seq<T>)
    ensures Enumerates(s, all)
  {
    s := [];
    var todo := all;
    while todo != {}
      invariant todo <= all
      invariant Enumerates(s, all - todo)
      decreases |todo|
    {
      var x :| x in todo;
      assert x !in s;
      s := s + [x];
      todo := todo - {x};
    }
  }

  lemma NoLaterSeparator(a: string, x: string, sep: char)
    requires sep !in x
    ensures forall i :: |a| < i < |a + [sep] + x| ==> (a + [sep] + x)[i] != sep
  {
    forall i | |a| < i < |a + [sep] + x| ensures (a + [sep] + x)[i] != sep {
      assert (a + [sep] + x)[i] == x[i - |a| - 1];
    }
  }

  /** A string splits at its last separator in one way only. */
  lemma LastSeparator(a: string, x: string, b: string, y: string, sep: char)
    requires sep !in x && sep !in y && a + [sep] + x == b + [sep] + y
    ensures a == b && x == y
  {
    var k, m, n := a + [sep] + x, |a|, |b|;
    NoLaterSeparator(a, x, sep);
    NoLaterSeparator(b, y, sep);
    assert k[m] == sep && k[n] == sep;
    assert k[..m] == a && k[..n] == b;
    assert k[m + 1..] == x && k[n + 1..] == y;
  }
}
