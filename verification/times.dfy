/** Clock times as the API stores them ("HH:MM" text) and as the control loop
    uses them (minutes since midnight). The API orders times as text, the
    control loop as numbers; this module says exactly when the two agree. */
module Times {
  import opened Base

  predicate IsDigit(c: char) { '0' <= c <= '9' }

  function Digit(c: char): (d: int)
    requires IsDigit(c)
    ensures 0 <= d <= 9
  {
    c as int - '0' as int
  }

  function Digits(s: string): Option<int> {
    if s == [] then Some(0)
    else
      match Digits(s[..|s| - 1])
      case None => None
      case Some(v) => if IsDigit(s[|s| - 1]) then Some(10 * v + Digit(s[|s| - 1])) else None
  }

  /** strconv.Atoi: an optional sign and at least one digit. */
  function Atoi(s: string): Option<int> {
    if s == [] then None
    else if s[0] == '+' || s[0] == '-' then
      if |s| == 1 then None
      else
        match Digits(s[1..])
        case None => None
        case Some(v) => Some(if s[0] == '-' then -v else v)
    else Digits(s)
  }

  function ColonAt(s: string): (i: nat)
    ensures i <= |s| && (i < |s| ==> s[i] == ':') && forall k :: 0 <= k < i ==> s[k] != ':'
  {
    if s == [] || s[0] == ':' then 0 else 1 + ColonAt(s[1..])
  }

  /** parseTimeToMinutes: split at the first colon, parse both halves. */
  function ParseMinutes(s: string): Option<int> {
    var i := ColonAt(s);
    if i == |s| then None
    else
      match (Atoi(s[..i]), Atoi(s[i + 1..]))
      case (Some(h), Some(m)) => Some(60 * h + m)
      case _ => None
  }

  /** Byte-wise string order: Go's `<` on strings. */
  predicate LexLess(a: string, b: string) {
    b != [] && (a == [] || a[0] < b[0] || (a[0] == b[0] && LexLess(a[1..], b[1..])))
  }

  /** What the request binding `datetime=15:04` lets through: one or two hour
      digits, a colon, exactly two minute digits, in range. */
  predicate Accepted(s: string) {
    && (|s| == 4 || |s| == 5)
    && s[|s| - 3] == ':'
    && IsDigit(s[0]) && IsDigit(s[|s| - 4]) && IsDigit(s[|s| - 2]) && IsDigit(s[|s| - 1])
    && Hour(s) < 24 && Minute(s) < 60
  }

  function Hour(s: string): int
    requires (|s| == 4 || |s| == 5) && IsDigit(s[0]) && IsDigit(s[|s| - 4])
  {
    if |s| == 4 then Digit(s[0]) else 10 * Digit(s[0]) + Digit(s[1])
  }

  function Minute(s: string): int
    requires |s| >= 2 && IsDigit(s[|s| - 2]) && IsDigit(s[|s| - 1])
  {
    10 * Digit(s[|s| - 2]) + Digit(s[|s| - 1])
  }

  function Minutes(s: string): int
    requires Accepted(s)
  {
    60 * Hour(s) + Minute(s)
  }

  predicate Padded(s: string) { Accepted(s) && |s| == 5 }

  lemma DigitsTwo(a: char, b: char)
    requires IsDigit(a) && IsDigit(b)
    ensures Digits([a, b]) == Some(10 * Digit(a) + Digit(b)) && Digits([a]) == Some(Digit(a))
  {
    assert Digits([]) == Some(0);
    assert [a][..0] == [];
    assert [a, b][..1] == [a];
  }

  /** Every accepted time parses, and to the minutes it denotes. */
  lemma AcceptedParses(s: string)
    requires Accepted(s)
    ensures ParseMinutes(s) == Some(Minutes(s))
    ensures 0 <= Minutes(s) < 1440
  {
    var n := |s|;
    var i := ColonAt(s);
    assert i == n - 3 by {
      assert s[n - 3] == ':';
      if n == 5 { assert s[0] != ':' && s[1] != ':'; } else { assert s[0] != ':'; }
    }
    assert s[i + 1..] == [s[n - 2], s[n - 1]];
    DigitsTwo(s[n - 2], s[n - 1]);
    if n == 5 {
      assert s[..i] == [s[0], s[1]];
      DigitsTwo(s[0], s[1]);
    } else {
      assert s[..i] == [s[0]];
      DigitsTwo(s[0], s[0]);
    }
  }

  /** Text order and clock order give the same answer on `s` and `t`. */
  ghost predicate OrderAgrees(s: string, t: string)
    requires Accepted(s) && Accepted(t)
  {
    && (LexLess(s, t) <==> Minutes(s) < Minutes(t))
    && (LexLess(t, s) <==> Minutes(t) < Minutes(s))
  }

  /** The order of two strings that first differ at `k`. */
  lemma {:induction false} LexAt(s: string, t: string, k: nat)
    requires k < |s| && k < |t| && s[..k] == t[..k] && s[k] != t[k]
    ensures LexLess(s, t) <==> s[k] < t[k]
  {
    if k > 0 {
      assert s[0] == s[..k][0] == t[..k][0] == t[0];
      assert s[1..][..k - 1] == s[..k][1..];
      assert t[1..][..k - 1] == t[..k][1..];
      LexAt(s[1..], t[1..], k - 1);
    }
  }

  lemma {:induction false} LexIrreflexive(s: string)
    ensures !LexLess(s, s)
  {
    if s != [] { LexIrreflexive(s[1..]); }
  }

  lemma FirstDifference(s: string, t: string) returns (k: nat)
    requires |s| == |t| && s != t
    ensures k < |s| && s[..k] == t[..k] && s[k] != t[k]
  {
    if s[0] != t[0] {
      k := 0;
    } else {
      assert s == [s[0]] + s[1..] && t == [t[0]] + t[1..];
      var j := FirstDifference(s[1..], t[1..]);
      k := j + 1;
      assert s[..k] == [s[0]] + s[1..][..j] && t[..k] == [t[0]] + t[1..][..j];
    }
  }

  lemma SameWidthAgree(s: string, t: string)
    requires Accepted(s) && Accepted(t) && |s| == |t|
    ensures OrderAgrees(s, t)
  {
    if s == t {
      LexIrreflexive(s);
    } else {
      var k := FirstDifference(s, t);
      LexAt(s, t, k);
      LexAt(t, s, k);
      if k > 0 { assert s[0] == s[..k][0] == t[..k][0] == t[0]; }
      if k > 1 { assert s[1] == s[..k][1] == t[..k][1] == t[1]; }
      if k > 2 { assert s[2] == s[..k][2] == t[..k][2] == t[2]; }
      if k > 3 { assert s[3] == s[..k][3] == t[..k][3] == t[3]; }
    }
  }

  /** `u` has a one-digit hour, `p` a two-digit one. */
  predicate MixedWidthsAgree(u: string, p: string)
    requires Accepted(u) && Accepted(p) && |u| == 4 && |p| == 5
  {
    if p[0] == '0' then Minutes(u) > Minutes(p) else u[0] < p[0]
  }

  lemma MixedWidths(u: string, p: string)
    requires Accepted(u) && Accepted(p) && |u| == 4 && |p| == 5
    ensures OrderAgrees(u, p) <==> MixedWidthsAgree(u, p)
  {
    if u[0] != p[0] {
      LexAt(u, p, 0);
      LexAt(p, u, 0);
    } else {
      assert u[..1] == [u[0]] == p[..1];
      LexAt(u, p, 1);
      LexAt(p, u, 1);
    }
  }

  /** Exactly when the API's text order of two accepted times is their clock
      order. Equal widths always agree; a one-digit hour against a two-digit
      one agrees only below the other's tens digit, or past a padded time. */
  lemma OrderAgreesExactly(s: string, t: string)
    requires Accepted(s) && Accepted(t)
    ensures OrderAgrees(s, t) <==>
            (|s| == |t| || (|s| < |t| && MixedWidthsAgree(s, t)) || (|t| < |s| && MixedWidthsAgree(t, s)))
  {
    if |s| == |t| { SameWidthAgree(s, t); }
    else if |s| < |t| { MixedWidths(s, t); }
    else { MixedWidths(t, s); }
  }
}
