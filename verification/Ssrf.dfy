/**
  The two gates in front of a navigation: the route's check, which resolves names, and the
  in-page interceptor, which does not.  URL parsing and DNS are inputs, and so is what the
  standard library calls private, loopback, link-local, multicast, reserved or unspecified.
*/
module Ssrf {
  import opened Common
  import opened Text
  import opened Bits

  datatype Ip = V4(bits: nat) | V6(bits: nat)

  function Width(ip: Ip): nat {
    if ip.V4? then 32 else 128
  }

  predicate Valid(ip: Ip) {
    ip.bits < Pow2(Width(ip))
  }

  /** A network as `ip_network` reads it: its first address and its prefix length. */
  datatype Network = Network(base: Ip, prefix: nat)

  function HostBits(n: Network): nat
    requires n.prefix <= Width(n.base)
  {
    Width(n.base) - n.prefix
  }

  function NetMask(n: Network): int
    requires n.prefix <= Width(n.base)
  {
    Pow2(Width(n.base)) - Pow2(HostBits(n))
  }

  predicate WellFormed(n: Network) {
    Valid(n.base) && n.prefix <= Width(n.base) && n.base.bits % Pow2(HostBits(n)) == 0
  }

  const LOCAL_V4: seq<Network> := [
    Network(V4(0x7F00_0000), 8),    // 127.0.0.0/8, loopback
    Network(V4(0x0A00_0000), 8),    // 10.0.0.0/8
    Network(V4(0xAC10_0000), 12),   // 172.16.0.0/12
    Network(V4(0xC0A8_0000), 16),   // 192.168.0.0/16
    Network(V4(0xA9FE_0000), 16),   // 169.254.0.0/16, link-local and cloud metadata
    Network(V4(0x0000_0000), 8)     // 0.0.0.0/8
  ]

  const SPECIAL_V4: seq<Network> := [
    Network(V4(0x6440_0000), 10),   // 100.64.0.0/10
    Network(V4(0xC000_0000), 24),   // 192.0.0.0/24
    Network(V4(0xC000_0200), 24),   // 192.0.2.0/24
    Network(V4(0xC633_6400), 24),   // 198.51.100.0/24
    Network(V4(0xCB00_7100), 24),   // 203.0.113.0/24
    Network(V4(0xC612_0000), 15),   // 198.18.0.0/15
    Network(V4(0xE000_0000), 4),    // 224.0.0.0/4
    Network(V4(0xF000_0000), 4)     // 240.0.0.0/4
  ]

  const SPECIAL_V6: seq<Network> := [
    Network(V6(1), 128),            // ::1/128
    Network(V6(0), 128),            // ::/128
    Network(V6(0xFFFF_0000_0000), 96),                            // ::ffff:0:0/96
    Network(V6(0x0064_FF9B_0000_0000_0000_0000_0000_0000), 96)    // 64:ff9b::/96
  ]

  const RANGES_V6: seq<Network> := [
    Network(V6(0xFC00_0000_0000_0000_0000_0000_0000_0000), 7),    // fc00::/7
    Network(V6(0xFE80_0000_0000_0000_0000_0000_0000_0000), 10),   // fe80::/10
    Network(V6(0xFF00_0000_0000_0000_0000_0000_0000_0000), 8),    // ff00::/8
    Network(V6(0x2001_0DB8_0000_0000_0000_0000_0000_0000), 32),   // 2001:db8::/32
    Network(V6(0x0100_0000_0000_0000_0000_0000_0000_0000), 64)    // 100::/64
  ]

  const BLOCKED := LOCAL_V4 + SPECIAL_V4 + SPECIAL_V6 + RANGES_V6

  // ---- networks --------------------------------------------------------------------------

  /** Membership by mask, as `ip_network` tests it. */
  predicate InNetwork(ip: Ip, n: Network)
    requires n.prefix <= Width(n.base)
  {
    ip.V4? == n.base.V4? && (PowGrows(HostBits(n), Width(n.base)); BitAnd(ip.bits, NetMask(n)) == n.base.bits)
  }

  predicate InRange(ip: Ip, n: Network)
    requires n.prefix <= Width(n.base)
  {
    ip.V4? == n.base.V4? && n.base.bits <= ip.bits < n.base.bits + Pow2(HostBits(n))
  }

  /** A listed network is the run of addresses from its first to its last. */
  lemma MembershipIsAnInterval(ip: Ip, n: Network)
    requires Valid(ip) && WellFormed(n)
    ensures InNetwork(ip, n) <==> InRange(ip, n)
  {
    if ip.V4? == n.base.V4? {
      MaskedIsAnInterval(ip.bits, n.base.bits, Width(n.base), HostBits(n));
    }
  }

  predicate AllWellFormed(ns: seq<Network>) {
    forall i :: 0 <= i < |ns| ==> WellFormed(ns[i])
  }

  /** A network whose first address is a multiple of its size. */
  lemma Clean(n: Network, host: nat, size: nat, multiple: nat)
    requires n.prefix + host == Width(n.base) && size == Pow2(host)
    requires n.base.bits == multiple * size && Valid(n.base)
    ensures WellFormed(n)
  {
    RemainderIsUnique(n.base.bits, size, multiple, 0);
  }

  lemma LocalV4()
    ensures AllWellFormed(LOCAL_V4)
  {
    Clean(LOCAL_V4[0], 24, 0x100_0000, 0x7F);
    Clean(LOCAL_V4[1], 24, 0x100_0000, 0xA);
    Clean(LOCAL_V4[2], 20, 0x10_0000, 0xAC1);
    Clean(LOCAL_V4[3], 16, 0x1_0000, 0xC0A8);
    Clean(LOCAL_V4[4], 16, 0x1_0000, 0xA9FE);
    Clean(LOCAL_V4[5], 24, 0x100_0000, 0x0);
  }

  lemma SpecialV4()
    ensures AllWellFormed(SPECIAL_V4)
  {
    Clean(SPECIAL_V4[0], 22, 0x40_0000, 0x191);
    Clean(SPECIAL_V4[1], 8, 0x100, 0xC0_0000);
    Clean(SPECIAL_V4[2], 8, 0x100, 0xC0_0002);
    Clean(SPECIAL_V4[3], 8, 0x100, 0xC6_3364);
    Clean(SPECIAL_V4[4], 8, 0x100, 0xCB_0071);
    Clean(SPECIAL_V4[5], 17, 0x2_0000, 0x6309);
    Clean(SPECIAL_V4[6], 28, 0x1000_0000, 0xE);
    Clean(SPECIAL_V4[7], 28, 0x1000_0000, 0xF);
  }

  lemma SpecialV6()
    ensures AllWellFormed(SPECIAL_V6)
  {
    Clean(SPECIAL_V6[0], 0, 0x1, 0x1);
    Clean(SPECIAL_V6[1], 0, 0x1, 0x0);
    Clean(SPECIAL_V6[2], 32, 0x1_0000_0000, 0xFFFF);
    Clean(SPECIAL_V6[3], 32, 0x1_0000_0000, 0x64_FF9B_0000_0000_0000_0000);
  }

  lemma RangesV6()
    ensures AllWellFormed(RANGES_V6)
  {
    assert Pow2(6) == 0x40 && Pow2(8) == 0x100 && Pow2(9) == 0x200;
    Clean(RANGES_V6[0], 121, 0x200_0000_0000_0000_0000_0000_0000_0000, 0x7E);
    Clean(RANGES_V6[1], 118, 0x40_0000_0000_0000_0000_0000_0000_0000, 0x3FA);
    Clean(RANGES_V6[2], 120, 0x100_0000_0000_0000_0000_0000_0000_0000, 0xFF);
    Clean(RANGES_V6[3], 96, 0x1_0000_0000_0000_0000_0000_0000, 0x2001_0DB8);
    Clean(RANGES_V6[4], 64, 0x1_0000_0000_0000_0000, 0x100_0000_0000_0000);
  }

  /** Every listed network starts with an address that has no host bits. */
  lemma ListIsWellFormed()
    ensures AllWellFormed(BLOCKED)
  {
    LocalV4();
    SpecialV4();
    SpecialV6();
    RangesV6();
  }

  // ---- one address ---------------------------------------------------------------------

  /** An IPv4-mapped IPv6 address is judged as the IPv4 address inside it. */
  function Normalize(ip: Ip): (r: Ip)
    ensures Valid(ip) ==> Valid(r)
  {
    if ip.V6? && ip.bits / 0x1_0000_0000 == 0xFFFF then V4(ip.bits % 0x1_0000_0000) else ip
  }

  function Mapped(v4: nat): Ip {
    V6(0xFFFF * 0x1_0000_0000 + v4)
  }

  predicate IpIsBlocked(ip: Ip, special: Ip -> bool) {
    var plain := Normalize(ip);
    special(plain) || exists i :: 0 <= i < |BLOCKED| && InListed(plain, i)
  }

  predicate InListed(ip: Ip, i: nat)
    requires i < |BLOCKED|
  {
    ListIsWellFormed();
    InNetwork(ip, BLOCKED[i])
  }

  predicate InListedRange(ip: Ip, i: nat)
    requires i < |BLOCKED|
  {
    ListIsWellFormed();
    InRange(ip, BLOCKED[i])
  }

  /** The verdict as plain ranges: nothing about masks is left. */
  lemma BlockedIffInARange(ip: Ip, special: Ip -> bool)
    requires Valid(ip)
    ensures IpIsBlocked(ip, special) <==>
              special(Normalize(ip)) ||
              exists i :: 0 <= i < |BLOCKED| && InListedRange(Normalize(ip), i)
  {
    ListIsWellFormed();
    forall i | 0 <= i < |BLOCKED|
      ensures InListed(Normalize(ip), i) <==> InListedRange(Normalize(ip), i)
    {
      MembershipIsAnInterval(Normalize(ip), BLOCKED[i]);
    }
  }

  lemma MappedIsJudgedAsV4(v4: nat, special: Ip -> bool)
    requires v4 < 0x1_0000_0000
    ensures Valid(Mapped(v4)) && Valid(V4(v4))
    ensures IpIsBlocked(Mapped(v4), special) == IpIsBlocked(V4(v4), special)
  {
    assert Normalize(Mapped(v4)) == V4(v4);
  }

  /** The list's own entry for mapped addresses never decides: they are unwrapped before it is asked. */
  lemma MappedEntryNeverDecides(ip: Ip)
    requires Valid(ip)
    ensures BLOCKED[16] == Network(Mapped(0), 96) && !InListed(Normalize(ip), 16)
  {
    ListIsWellFormed();
    MembershipIsAnInterval(Normalize(ip), BLOCKED[16]);
    UnwrappedIsOutside(ip);
  }

  lemma UnwrappedIsOutside(ip: Ip)
    ensures !InRange(Normalize(ip), Network(Mapped(0), 96))
  {
  }

  // ---- the two gates -------------------------------------------------------------------

  datatype Url = Unparsable | Parsed(scheme: string, host: string)

  /**
    What the gates are told from outside: the two settings, the standard library's opinion
    of an address, how it reads a literal address, and what a lookup of the host answered
    (`None` if it failed; an answer is `None` if it does not parse as an address).
   */
  datatype World = World(
    env: string,
    allowPrivate: bool,
    special: Ip -> bool,
    literal: string -> Option<Ip>,
    answers: Option<seq<Option<Ip>>>)

  datatype Reason = MalformedUrl | UnsupportedScheme | HostNotAllowed

  datatype Verdict = Allowed | Refused(reason: Reason)

  predicate PrivateHostsAllowed(w: World) {
    w.env == "development" && w.allowPrivate
  }

  predicate IsWeb(scheme: string) {
    Lower(scheme) in ["http", "https"]
  }

  predicate IsLocalName(host: string) {
    Lower(host) in ["localhost", "localhost.localdomain"] || EndsWith(Lower(host), ".localhost")
  }

  /** The loop over the answers: stop at the first blocked one, skip those that do not parse. */
  predicate SomeAnswerBlocked(answers: seq<Option<Ip>>, special: Ip -> bool) {
    answers != [] &&
    ((answers[0].Some? && IpIsBlocked(answers[0].value, special)) || SomeAnswerBlocked(answers[1..], special))
  }

  /** The route's check. */
  function CheckNavigateUrl(url: Url, w: World): Verdict {
    if url.Unparsable? || url.scheme == "" then Refused(MalformedUrl)
    else if !IsWeb(url.scheme) then Refused(UnsupportedScheme)
    else if url.host == "" then Refused(MalformedUrl)
    else if PrivateHostsAllowed(w) then Allowed
    else if IsLocalName(url.host) then Refused(HostNotAllowed)
    else
      match w.literal(Lower(url.host))
      case Some(ip) => if IpIsBlocked(ip, w.special) then Refused(HostNotAllowed) else Allowed
      case None =>
        if w.answers.Some? && SomeAnswerBlocked(w.answers.value, w.special)
        then Refused(HostNotAllowed)
        else Allowed
  }

  /** The interceptor's check. */
  predicate NavigationRequestIsBlocked(url: Url, w: World) {
    if url.Unparsable? then true
    else if !IsWeb(url.scheme) then true
    else if url.host == "" then true
    else if PrivateHostsAllowed(w) then false
    else if IsLocalName(url.host) then true
    else
      match w.literal(Lower(url.host))
      case Some(ip) => IpIsBlocked(ip, w.special)
      case None => false
  }

  lemma {:induction false} SearchFindsAny(answers: seq<Option<Ip>>, special: Ip -> bool)
    ensures SomeAnswerBlocked(answers, special) <==>
              exists i :: 0 <= i < |answers| && answers[i].Some? && IpIsBlocked(answers[i].value, special)
  {
    if answers != [] {
      SearchFindsAny(answers[1..], special);
      if i :| 0 <= i < |answers| && answers[i].Some? && IpIsBlocked(answers[i].value, special) {
        assert i > 0 ==> answers[1..][i - 1] == answers[i];
      }
    }
  }

  /** The host reaches the name lookup: nothing before it decided. */
  predicate NeedsLookup(url: Url, w: World) {
    url.Parsed? && IsWeb(url.scheme) && url.host != "" && !PrivateHostsAllowed(w) &&
    !IsLocalName(url.host) && w.literal(Lower(url.host)).None?
  }

  /** The route refuses what the interceptor blocks, and beyond that only names that resolve badly. */
  lemma GatesAgreeUpToLookup(url: Url, w: World)
    ensures CheckNavigateUrl(url, w).Refused? <==>
              NavigationRequestIsBlocked(url, w) ||
              (NeedsLookup(url, w) && w.answers.Some? &&
               exists i :: 0 <= i < |w.answers.value| && w.answers.value[i].Some? &&
                           IpIsBlocked(w.answers.value[i].value, w.special))
    ensures NavigationRequestIsBlocked(url, w) ==> CheckNavigateUrl(url, w).Refused?
    ensures url.Parsed? && w.literal(Lower(url.host)).Some? ==>
              (NavigationRequestIsBlocked(url, w) <==> CheckNavigateUrl(url, w).Refused?)
  {
    assert Lower("") == "";
    if w.answers.Some? {
      SearchFindsAny(w.answers.value, w.special);
    }
  }

  /** The escape hatch: the setting, and exactly the development environment. */
  predicate HatchOpen(w: World) {
    w.allowPrivate && w.env == "development"
  }

  /** A name that means this machine, however it is spelt. */
  ghost predicate NamesThisMachine(host: string) {
    || Lower(host) == "localhost" || Lower(host) == "localhost.localdomain"
    || exists before :: Lower(host) == before + ".localhost"
  }

  /** A parsed web address with a host, which the scheme and host checks let through. */
  predicate WellAddressed(url: Url) {
    url.Parsed? && (Lower(url.scheme) == "http" || Lower(url.scheme) == "https") && url.host != ""
  }

  /** What the interceptor stops among them: with the hatch open nothing, else local names and blocked literals. */
  lemma InterceptorStopsIff(url: Url, w: World)
    requires WellAddressed(url)
    ensures NavigationRequestIsBlocked(url, w) <==>
      && !HatchOpen(w)
      && (|| NamesThisMachine(url.host)
          || exists ip :: w.literal(Lower(url.host)) == Some(ip) && IpIsBlocked(ip, w.special))
  {
    EndsWithIff(Lower(url.host), ".localhost");
  }

  /** What the route stops among them: the same, and names with a blocked answer; always for the host. */
  lemma RouteStopsIff(url: Url, w: World)
    requires WellAddressed(url)
    ensures CheckNavigateUrl(url, w) == Refused(HostNotAllowed) <==> CheckNavigateUrl(url, w).Refused?
    ensures CheckNavigateUrl(url, w).Refused? <==>
      && !HatchOpen(w)
      && (|| NamesThisMachine(url.host)
          || (exists ip :: w.literal(Lower(url.host)) == Some(ip) && IpIsBlocked(ip, w.special))
          || (w.literal(Lower(url.host)) == None && w.answers.Some? &&
              exists i :: 0 <= i < |w.answers.value| && w.answers.value[i].Some? &&
                          IpIsBlocked(w.answers.value[i].value, w.special)))
  {
    InterceptorStopsIff(url, w);
    GatesAgreeUpToLookup(url, w);
  }

  /** A URL that is not well addressed is stopped by both gates, whatever the settings. */
  lemma BadlyAddressedIsStopped(url: Url, w: World)
    requires !WellAddressed(url)
    ensures NavigationRequestIsBlocked(url, w) && CheckNavigateUrl(url, w).Refused?
  {
  }

  function Quad(a: nat, b: nat, c: nat, d: nat): nat {
    ((a * 0x100 + b) * 0x100 + c) * 0x100 + d
  }

  /** This machine, this host, private and link-local IPv4 addresses. */
  predicate IsLocal(v4: nat) {
    || Quad(127, 0, 0, 0) <= v4 <= Quad(127, 255, 255, 255)
    || Quad(10, 0, 0, 0) <= v4 <= Quad(10, 255, 255, 255)
    || Quad(172, 16, 0, 0) <= v4 <= Quad(172, 31, 255, 255)
    || Quad(192, 168, 0, 0) <= v4 <= Quad(192, 168, 255, 255)
    || Quad(169, 254, 0, 0) <= v4 <= Quad(169, 254, 255, 255)
    || Quad(0, 0, 0, 0) <= v4 <= Quad(0, 255, 255, 255)
  }

  /** Shared, protocol and test addresses. */
  predicate IsShared(v4: nat) {
    || Quad(100, 64, 0, 0) <= v4 <= Quad(100, 127, 255, 255)
    || Quad(192, 0, 0, 0) <= v4 <= Quad(192, 0, 0, 255)
    || Quad(192, 0, 2, 0) <= v4 <= Quad(192, 0, 2, 255)
    || Quad(198, 51, 100, 0) <= v4 <= Quad(198, 51, 100, 255)
    || Quad(203, 0, 113, 0) <= v4 <= Quad(203, 0, 113, 255)
  }

  /** Benchmarking, multicast and reserved addresses. */
  predicate IsReserved(v4: nat) {
    || Quad(198, 18, 0, 0) <= v4 <= Quad(198, 19, 255, 255)
    || Quad(224, 0, 0, 0) <= v4 <= Quad(239, 255, 255, 255)
    || Quad(240, 0, 0, 0) <= v4 <= Quad(255, 255, 255, 255)
  }

  lemma Covers(n: Network, host: nat, size: nat, v4: nat)
    requires n.base.V4? && n.prefix + host == 32 && size == Pow2(host)
    requires n.base.bits <= v4 < n.base.bits + size
    ensures InRange(V4(v4), n)
  {
  }

  lemma LocalRange(v4: nat) returns (k: nat)
    requires IsLocal(v4)
    ensures k < |LOCAL_V4| && LOCAL_V4[k].prefix <= Width(LOCAL_V4[k].base) && InRange(V4(v4), LOCAL_V4[k])
    ensures v4 < 0x1_0000_0000
  {
    if Quad(127, 0, 0, 0) <= v4 <= Quad(127, 255, 255, 255) {
      k := 0;
      Covers(LOCAL_V4[0], 24, 0x100_0000, v4);
    } else if Quad(10, 0, 0, 0) <= v4 <= Quad(10, 255, 255, 255) {
      k := 1;
      Covers(LOCAL_V4[1], 24, 0x100_0000, v4);
    } else if Quad(172, 16, 0, 0) <= v4 <= Quad(172, 31, 255, 255) {
      k := 2;
      Covers(LOCAL_V4[2], 20, 0x10_0000, v4);
    } else if Quad(192, 168, 0, 0) <= v4 <= Quad(192, 168, 255, 255) {
      k := 3;
      Covers(LOCAL_V4[3], 16, 0x1_0000, v4);
    } else if Quad(169, 254, 0, 0) <= v4 <= Quad(169, 254, 255, 255) {
      k := 4;
      Covers(LOCAL_V4[4], 16, 0x1_0000, v4);
    } else if Quad(0, 0, 0, 0) <= v4 <= Quad(0, 255, 255, 255) {
      k := 5;
      Covers(LOCAL_V4[5], 24, 0x100_0000, v4);
    }
  }

  lemma SharedRange(v4: nat) returns (k: nat)
    requires IsShared(v4)
    ensures k < |SPECIAL_V4| && SPECIAL_V4[k].prefix <= Width(SPECIAL_V4[k].base) && InRange(V4(v4), SPECIAL_V4[k])
    ensures v4 < 0x1_0000_0000
  {
    if Quad(100, 64, 0, 0) <= v4 <= Quad(100, 127, 255, 255) {
      k := 0;
      Covers(SPECIAL_V4[0], 22, 0x40_0000, v4);
    } else if Quad(192, 0, 0, 0) <= v4 <= Quad(192, 0, 0, 255) {
      k := 1;
      Covers(SPECIAL_V4[1], 8, 0x100, v4);
    } else if Quad(192, 0, 2, 0) <= v4 <= Quad(192, 0, 2, 255) {
      k := 2;
      Covers(SPECIAL_V4[2], 8, 0x100, v4);
    } else if Quad(198, 51, 100, 0) <= v4 <= Quad(198, 51, 100, 255) {
      k := 3;
      Covers(SPECIAL_V4[3], 8, 0x100, v4);
    } else if Quad(203, 0, 113, 0) <= v4 <= Quad(203, 0, 113, 255) {
      k := 4;
      Covers(SPECIAL_V4[4], 8, 0x100, v4);
    }
  }

  lemma ReservedRange(v4: nat) returns (k: nat)
    requires IsReserved(v4)
    ensures k < |SPECIAL_V4| && SPECIAL_V4[k].prefix <= Width(SPECIAL_V4[k].base) && InRange(V4(v4), SPECIAL_V4[k])
    ensures v4 < 0x1_0000_0000
  {
    if Quad(198, 18, 0, 0) <= v4 <= Quad(198, 19, 255, 255) {
      k := 5;
      Covers(SPECIAL_V4[5], 17, 0x2_0000, v4);
    } else if Quad(224, 0, 0, 0) <= v4 <= Quad(239, 255, 255, 255) {
      k := 6;
      Covers(SPECIAL_V4[6], 28, 0x1000_0000, v4);
    } else if Quad(240, 0, 0, 0) <= v4 <= Quad(255, 255, 255, 255) {
      k := 7;
      Covers(SPECIAL_V4[7], 28, 0x1000_0000, v4);
    }
  }

  /** Whatever the standard library thinks of it, no such address passes, plain or IPv4-mapped. */
  lemma OffLimitsIsBlocked(v4: nat, special: Ip -> bool)
    requires IsLocal(v4) || IsShared(v4) || IsReserved(v4)
    ensures v4 < 0x1_0000_0000 && IpIsBlocked(V4(v4), special) && IpIsBlocked(Mapped(v4), special)
  {
    if IsLocal(v4) {
      var k := LocalRange(v4);
      assert BLOCKED[k] == LOCAL_V4[k];
      ListedIsBlocked(v4, k, special);
    } else {
      var k: nat;
      if IsShared(v4) {
        k := SharedRange(v4);
      } else {
        k := ReservedRange(v4);
      }
      assert BLOCKED[|LOCAL_V4| + k] == SPECIAL_V4[k];
      ListedIsBlocked(v4, |LOCAL_V4| + k, special);
    }
  }

  lemma ListedIsBlocked(v4: nat, i: nat, special: Ip -> bool)
    requires v4 < 0x1_0000_0000 && i < |BLOCKED|
    requires BLOCKED[i].prefix <= Width(BLOCKED[i].base) && InRange(V4(v4), BLOCKED[i])
    ensures IpIsBlocked(V4(v4), special) && IpIsBlocked(Mapped(v4), special)
  {
    MappedIsJudgedAsV4(v4, special);
    ListIsWellFormed();
    assert InListedRange(V4(v4), i);
    BlockedIffInARange(V4(v4), special);
  }

  /** Whatever the settings and answers, what passes is a web address with a host. */
  lemma OnlyWebUrlsPass(url: Url, w: World)
    ensures CheckNavigateUrl(url, w).Allowed? ==> url.Parsed? && IsWeb(url.scheme) && url.host != ""
    ensures w.env != "development" ==>
              CheckNavigateUrl(url, w) == CheckNavigateUrl(url, w.(allowPrivate := false)) &&
              NavigationRequestIsBlocked(url, w) == NavigationRequestIsBlocked(url, w.(allowPrivate := false))
  {
  }

  /** Which reason a refusal carries, as a partition of the refused URLs. */
  lemma ReasonsPartition(url: Url, w: World)
    ensures CheckNavigateUrl(url, w) == Refused(MalformedUrl) <==>
              url.Unparsable? || url.scheme == "" || (IsWeb(url.scheme) && url.host == "")
    ensures CheckNavigateUrl(url, w) == Refused(UnsupportedScheme) <==>
              url.Parsed? && url.scheme != "" && !IsWeb(url.scheme)
    ensures CheckNavigateUrl(url, w) == Refused(HostNotAllowed) ==>
              !PrivateHostsAllowed(w) &&
              (IsLocalName(url.host) || w.literal(Lower(url.host)).Some? || w.answers.Some?)
  {
  }

  /** Writing a literal, or a name server answering, in IPv4-mapped form gains nothing. */
  lemma MappedFormGainsNothing(url: Url, w: World, v4: nat, respelt: string -> Option<Ip>, i: nat)
    requires v4 < 0x1_0000_0000
    ensures url.Parsed? && w.literal(Lower(url.host)) == Some(V4(v4)) &&
            respelt(Lower(url.host)) == Some(Mapped(v4)) ==>
              CheckNavigateUrl(url, w.(literal := respelt)) == CheckNavigateUrl(url, w) &&
              NavigationRequestIsBlocked(url, w.(literal := respelt)) == NavigationRequestIsBlocked(url, w)
    ensures w.answers.Some? && i < |w.answers.value| && w.answers.value[i] == Some(V4(v4)) ==>
              CheckNavigateUrl(url, w.(answers := Some(w.answers.value[i := Some(Mapped(v4))])))
              == CheckNavigateUrl(url, w)
  {
    MappedIsJudgedAsV4(v4, w.special);
    if w.answers.Some? && i < |w.answers.value| && w.answers.value[i] == Some(V4(v4)) {
      AnswerInMappedForm(w.answers.value, w.special, v4, i);
    }
  }

  lemma {:induction false} AnswerInMappedForm(answers: seq<Option<Ip>>, special: Ip -> bool, v4: nat, i: nat)
    requires v4 < 0x1_0000_0000 && i < |answers| && answers[i] == Some(V4(v4))
    ensures SomeAnswerBlocked(answers[i := Some(Mapped(v4))], special) == SomeAnswerBlocked(answers, special)
  {
    MappedIsJudgedAsV4(v4, special);
    var changed := answers[i := Some(Mapped(v4))];
    if i == 0 {
      assert changed[1..] == answers[1..];
    } else {
      AnswerInMappedForm(answers[1..], special, v4, i - 1);
      assert changed[1..] == answers[1..][i - 1 := Some(Mapped(v4))];
    }
  }
}
