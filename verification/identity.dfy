/** The names the simulator generates, and that no two things share one. */
module Identity {
  import opened Base

  function Digit(k: nat): char
    requires k < 10
  {
    ('0' as int + k) as char
  }

  /** %d of a non-negative number. */
  function Digits(n: nat): string {
    if n < 10 then [Digit(n)] else Digits(n / 10) + [Digit(n % 10)]
  }

  /** The number a string of digits stands for. */
  function Number(s: string): int {
    if s == "" then 0 else Number(s[..|s| - 1]) * 10 + (s[|s| - 1] as int - '0' as int)
  }

  lemma {:induction false} NumberOfDigits(n: nat)
    ensures Number(Digits(n)) == n && '-' !in Digits(n)
  {
    var s := Digits(n);
    if n < 10 {
      assert s[..0] == "";
    } else {
      NumberOfDigits(n / 10);
      assert s[..|s| - 1] == Digits(n / 10);
    }
  }

  /** %03d. */
  function Padded(n: nat): string {
    if n < 10 then "00" + Digits(n) else if n < 100 then "0" + Digits(n) else Digits(n)
  }

  lemma {:induction false} LeadingZero(s: string)
    ensures Number("0" + s) == Number(s)
  {
    if s == "" {
      assert ("0" + s)[..0] == "";
    } else {
      LeadingZero(s[..|s| - 1]);
      assert ("0" + s)[..|s|] == "0" + s[..|s| - 1];
    }
  }

  lemma NumberOfPadded(n: nat)
    ensures Number(Padded(n)) == n
  {
    NumberOfDigits(n);
    LeadingZero(Digits(n));
    LeadingZero("0" + Digits(n));
    assert "00" + Digits(n) == "0" + ("0" + Digits(n));
  }

  function HwIdOf(sim: string, user: nat, room: nat, device: nat): HwId {
    "sim-" + sim + "-" + Digits(user) + "-" + Digits(room) + "-" + Digits(device)
  }

  function EmailOf(sim: string, user: nat, domain: string): string {
    "sim-" + sim + "-user-" + Padded(user) + "@" + domain
  }

  function RoomNameOf(prefix: string, room: nat): string { prefix + "-" + Digits(room) }

  lemma LastDigits(a: string, b: string, m: nat, n: nat)
    requires a + "-" + Digits(m) == b + "-" + Digits(n)
    ensures a == b && m == n
  {
    NumberOfDigits(m);
    NumberOfDigits(n);
    LastSeparator(a, Digits(m), b, Digits(n), '-');
  }

  /** Two devices never share a hardware id, whatever dashes and digits the
      simulation names contain. */
  lemma HwIdsDiffer(sim: string, u: nat, r: nat, d: nat, sim': string, u': nat, r': nat, d': nat)
    requires HwIdOf(sim, u, r, d) == HwIdOf(sim', u', r', d')
    ensures sim == sim' && u == u' && r == r' && d == d'
  {
    LastDigits("sim-" + sim + "-" + Digits(u) + "-" + Digits(r), "sim-" + sim' + "-" + Digits(u') + "-" + Digits(r'), d, d');
    LastDigits("sim-" + sim + "-" + Digits(u), "sim-" + sim' + "-" + Digits(u'), r, r');
    LastDigits("sim-" + sim, "sim-" + sim', u, u');
    assert ("sim-" + sim)[4..] == sim && ("sim-" + sim')[4..] == sim';
  }

  lemma EmailsDiffer(sim: string, domain: string, u: nat, u': nat)
    requires EmailOf(sim, u, domain) == EmailOf(sim, u', domain)
    ensures u == u'
  {
    var head, tail := "sim-" + sim + "-user-", "@" + domain;
    var e, p, p' := EmailOf(sim, u, domain), Padded(u), Padded(u');
    assert e == head + p + tail && e == head + p' + tail;
    assert e[|head|..|e| - |tail|] == p && e[|head|..|e| - |tail|] == p';
    NumberOfPadded(u);
    NumberOfPadded(u');
  }

  lemma RoomNamesDiffer(prefix: string, r: nat, prefix': string, r': nat)
    requires RoomNameOf(prefix, r) == RoomNameOf(prefix', r')
    ensures prefix == prefix' && r == r'
  {
    LastDigits(prefix, prefix', r, r');
  }
}
