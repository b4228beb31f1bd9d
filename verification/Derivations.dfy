// Values that several controllers derive on their own and that have to agree.

// The kubelet provider ID "hetzner-robot://<serverID>".
module ProviderIds {
  import opened Common

  const PREFIX := "hetzner-robot://"

  // strconv.Atoi parses into Go's int, which is 64 bits wide on every supported platform.
  const MAX_INT := 0x7FFF_FFFF_FFFF_FFFF

  function DigitChar(d: nat): char requires d < 10 { ('0' as int + d) as char }

  predicate IsDigit(c: char) { '0' <= c <= '9' }

  function Decimal(n: nat): (s: string)
    ensures |s| > 0 && forall c | c in s :: IsDigit(c)
  {
    if n < 10 then [DigitChar(n)] else Decimal(n / 10) + [DigitChar(n % 10)]
  }

  // fmt's %d
  function FormatInt(n: int): string {
    if n < 0 then "-" + Decimal(-n) else Decimal(n)
  }

  function Print(serverID: int): string { PREFIX + FormatInt(serverID) }

  function ParseDigits(s: string): Option<nat> {
    if s == [] then None
    else
      var c := s[|s| - 1];
      if !IsDigit(c) then None
      else
        var d := c as int - '0' as int;
        if |s| == 1 then Some(d)
        else match ParseDigits(s[..|s| - 1])
          case None => None
          case Some(v) => Some(10 * v + d)
  }

  // strconv.Atoi: an optional sign, at least one digit, and a value that fits an int.
  function Atoi(s: string): Option<int> {
    if s == [] then None
    else
      var signed := s[0] == '-' || s[0] == '+';
      match ParseDigits(if signed then s[1..] else s)
      case None => None
      case Some(v) =>
        var n: int := v;
        if s[0] == '-' then (if n <= MAX_INT + 1 then Some(0 - n) else None)
        else if n <= MAX_INT then Some(n) else None
  }

  // robotServerIDFromProviderID
  function ServerID(providerID: Option<string>): (r: Option<int>)
    ensures r.Some? ==> 1 <= r.value <= MAX_INT
  {
    if providerID.None? || !HasPrefix(providerID.value, PREFIX) then None
    else match Atoi(TrimPrefix(providerID.value, PREFIX))
      case None => None
      case Some(n) => if n <= 0 then None else Some(n)
  }

  lemma {:induction false} ParseDecimal(n: nat)
    ensures ParseDigits(Decimal(n)) == Some(n)
  {
    if n >= 10 {
      ParseDecimal(n / 10);
      var s := Decimal(n);
      assert s[..|s| - 1] == Decimal(n / 10);
    }
  }

  // Parsing undoes printing for exactly the server IDs the API admits and Go's int can hold.
  lemma RoundTrip(n: int)
    ensures Print(n) == "hetzner-robot://" + FormatInt(n)
    ensures ServerID(Some(Print(n))) == Some(n) <==> 1 <= n <= 0x7FFF_FFFF_FFFF_FFFF
  {
    var p := Print(n);
    assert p[..|PREFIX|] == PREFIX;
    assert TrimPrefix(p, PREFIX) == FormatInt(n);
    if n >= 0 {
      ParseDecimal(n);
      assert IsDigit(Decimal(n)[0]);
    }
  }
}

// computeBackoff, in seconds.
module Backoff {
  import opened Common

  const BASE := 30
  const CAP := 300

  function Pow2(n: nat): (p: nat)
    ensures p >= 1
  {
    if n == 0 then 1 else 2 * Pow2(n - 1)
  }

  // The documented law: 30 seconds doubled per retry, at most five minutes.
  function Delay(retryCount: int): int {
    Min(CAP, BASE * Pow2(Max(retryCount - 1, 0)))
  }

  lemma {:induction false} Pow2Monotone(a: nat, b: nat)
    requires a <= b
    ensures Pow2(a) <= Pow2(b)
    decreases b
  {
    if a < b {
      Pow2Monotone(a, b - 1);
    }
  }

  // The exponent is clamped to 0..10 before the power is taken; the clamp is invisible.
  method ComputeBackoff(retryCount: int) returns (seconds: int)
    ensures seconds == Delay(retryCount)
  {
    var exp := retryCount - 1;
    if exp < 0 {
      exp := 0;
    }
    if exp > 10 {
      exp := 10;
      Pow2Monotone(10, retryCount - 1);
      assert Pow2(10) == 1024 by { assert Pow2(5) == 32; }
    }
    seconds := BASE * Pow2(exp);
    if seconds > CAP {
      seconds := CAP;
    }
  }

  lemma DelayMonotone(m: int, n: int)
    requires m <= n
    ensures Delay(m) <= Delay(n)
  {
    Pow2Monotone(Max(m - 1, 0), Max(n - 1, 0));
  }

  lemma DelayTable(n: int)
    ensures n <= 1 ==> Delay(n) == 30
    ensures n == 2 ==> Delay(n) == 60
    ensures n == 3 ==> Delay(n) == 120
    ensures n == 4 ==> Delay(n) == 240
    ensures n >= 5 ==> Delay(n) == 300
  {
    if n >= 5 {
      DelayMonotone(5, n);
      assert Pow2(4) == 16;
    }
  }
}

// The node address ::1 inside a host's /64. Five places derive it from the same field.
module Ipv6 {
  import opened Common

  // strings.Split(s, "/")[0]
  function BeforeSlash(s: string): (r: string)
    ensures r <= s && '/' !in r
    ensures r == s || s[|r|] == '/'
  {
    if s == [] || s[0] == '/' then [] else [s[0]] + BeforeSlash(s[1..])
  }

  // status.addresses (controllers/hetznerrobotmachine_controller.go), the Talos node-ip
  // (injectKubeletNodeIP) and the Flatcar node-ip (buildKubeletExtraArgs).
  function NodeAddress(net: string): string { TrimSuffix(BeforeSlash(net), "::") + "::1" }

  // The Talos interface entry (injectIPv6Config).
  function TalosInterfaceAddress(net: string): string { BeforeSlash(net) + "1/64" }

  // The Flatcar networkd file (addHetznerPrimaryNetwork).
  function FlatcarInterfaceAddress(net: string): string {
    TrimSuffix(BeforeSlash(net), "::") + "::1/64"
  }

  // What the host controller stores for the network reported by the Robot API.
  function Normalise(net: string): string { TrimSuffix(net, "::") + "::/64" }

  lemma {:induction false} BeforeSlashOf(p: string, rest: string)
    requires '/' !in p
    requires rest == [] || rest[0] == '/'
    ensures BeforeSlash(p + rest) == p
  {
    if p == [] {
      assert p + rest == rest;
    } else {
      assert (p + rest)[1..] == p[1..] + rest;
      BeforeSlashOf(p[1..], rest);
    }
  }

  // Both spellings of the network, and the stored normal form, give prefix::1 everywhere.
  lemma DerivationsAgree(prefix: string, net: string)
    requires '/' !in prefix
    requires net == prefix + "::" || net == prefix + "::/64"
    ensures NodeAddress(net) == prefix + "::1"
    ensures TalosInterfaceAddress(net) == prefix + "::1/64" == FlatcarInterfaceAddress(net)
    ensures Normalise(prefix + "::") == prefix + "::/64"
  {
    var q := prefix + "::";
    assert q[|q| - 2..] == "::" && q[..|q| - 2] == prefix;
    assert TrimSuffix(q, "::") == prefix;
    if net == q {
      BeforeSlashOf(q, []);
      assert q + [] == q;
    } else {
      BeforeSlashOf(q, "/64");
      assert net == q + "/64";
    }
    assert BeforeSlash(net) == q;
    assert q + "1/64" == prefix + "::1/64";
  }

  // The Talos entry does not put back the "::" the others put back, so it agrees with them
  // for exactly the networks whose part before the slash ends in "::".
  lemma TalosAgreesExactly(net: string)
    ensures TalosInterfaceAddress(net) == FlatcarInterfaceAddress(net)
            <==> HasSuffix(BeforeSlash(net), "::")
  {
    var q := BeforeSlash(net);
    if HasSuffix(q, "::") {
      assert q == q[..|q| - 2] + "::";
      assert q + "1/64" == q[..|q| - 2] + "::1/64";
    } else {
      assert |q + "1/64"| != |q + "::1/64"|;
    }
  }
}
