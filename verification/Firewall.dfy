/** The output firewall of a session's network namespace: the rule list built from the administrator's
    allowlist, evaluated first match first, against the policy it is meant to implement. */
module Firewall {
  import opened Options

  // ---------------------------------------------------------------- prefixes (section 3.1 of RFC 4632)

  type Address = a: int | 0 <= a < 0x1_0000_0000

  datatype Prefix = Prefix(base: Address, bits: nat)

  predicate ValidPrefix(p: Prefix) { p.bits <= 32 }

  /** What is left of an address without its last `host` bits. */
  function Leading(a: nat, host: nat): nat
    decreases host
  {
    if host == 0 then a else Leading(a / 2, host - 1)
  }

  /** The address has the prefix's leading bits. */
  predicate Contains(p: Prefix, a: Address)
    requires ValidPrefix(p)
  {
    Leading(a, 32 - p.bits) == Leading(p.base, 32 - p.bits)
  }

  /** The address with its last `host` bits cleared. */
  function Cleared(a: nat, host: nat): (r: nat)
    ensures r <= a
    decreases host
  {
    if host == 0 then a else 2 * Cleared(a / 2, host - 1)
  }

  /** The network of a CIDR string: its host bits are cleared. */
  function Network(a: Address, bits: nat): (p: Prefix)
    requires bits <= 32
    ensures ValidPrefix(p)
  {
    Prefix(Cleared(a, 32 - bits), bits)
  }

  function Power(n: nat): nat {
    if n == 0 then 1 else 2 * Power(n - 1)
  }

  /** Agreeing on the leading bits is lying in the block that starts where the host bits are clear. */
  lemma {:induction false} LeadingIsBlock(a: nat, x: nat, host: nat)
    ensures Leading(x, host) == Leading(a, host) <==> Cleared(a, host) <= x < Cleared(a, host) + Power(host)
    decreases host
  {
    if host > 0 { LeadingIsBlock(a / 2, x / 2, host - 1); }
  }

  lemma {:induction false} ClearedKeepsLeading(a: nat, host: nat)
    ensures Leading(Cleared(a, host), host) == Leading(a, host)
    decreases host
  {
    if host > 0 { ClearedKeepsLeading(a / 2, host - 1); }
  }

  /** Clearing the host bits keeps the set of addresses of a network, which is the block of 2^(32 - bits)
      addresses from its base on. */
  lemma NetworkIsBlock(a: Address, bits: nat, x: Address)
    requires bits <= 32
    ensures Contains(Network(a, bits), x) <==> Contains(Prefix(a, bits), x)
    ensures Contains(Network(a, bits), x) <==> Network(a, bits).base <= x < Network(a, bits).base + Power(32 - bits)
  {
    ClearedKeepsLeading(a, 32 - bits);
    LeadingIsBlock(a, x, 32 - bits);
  }

  // ---------------------------------------------------------------- rules and packets

  datatype Destination = V4(address: Address) | V6

  datatype Packet = Packet(established: bool, loopback: bool, destination: Destination)

  datatype Verdict = Accept | Reject | Drop

  datatype Match = EstablishedOrRelated | OutLoopback | To4(prefix: Prefix) | AnyIPv6

  datatype Rule = Rule(match_: Match, verdict: Verdict)

  predicate ValidRule(r: Rule) { r.match_.To4? ==> ValidPrefix(r.match_.prefix) }

  predicate Matches(r: Rule, p: Packet)
    requires ValidRule(r)
  {
    match r.match_
    case EstablishedOrRelated => p.established
    case OutLoopback => p.loopback
    case To4(prefix) => p.destination.V4? && Contains(prefix, p.destination.address)
    case AnyIPv6 => p.destination.V6?
  }

  predicate ValidRules(rules: seq<Rule>) {
    forall i | 0 <= i < |rules| :: ValidRule(rules[i])
  }

  /** The first matching rule decides; the chain's policy is to drop. */
  function Evaluate(rules: seq<Rule>, p: Packet): Verdict
    requires ValidRules(rules)
  {
    if rules == [] then Drop
    else if Matches(rules[0], p) then rules[0].verdict
    else Evaluate(rules[1..], p)
  }

  // ---------------------------------------------------------------- reading the allowlist

  /** One entry of the allowlist as configured: not a string, text that is no CIDR, an IPv6 CIDR or an
      IPv4 one. */
  datatype Configured = NotText | NotCIDR | CIDR6 | CIDR4(address: Address, bits: nat)

  predicate Readable(e: Configured) { e.CIDR4? && e.bits <= 32 }

  const MAX_ENTRIES: nat := 64

  /** The networks of the entries, in order; refused when there are too many or one is not an IPv4 CIDR. */
  method ParseAllowlist(entries: seq<Configured>) returns (list: Option<seq<Prefix>>)
    ensures list.Some? <==>
      |entries| <= 64 && forall i | 0 <= i < |entries| :: entries[i].CIDR4? && entries[i].bits <= 32
    ensures list.Some? ==> |list.value| == |entries|
    ensures list.Some? ==> forall i | 0 <= i < |entries| ::
      Readable(entries[i]) && list.value[i] == Network(entries[i].address, entries[i].bits)
  {
    if |entries| > MAX_ENTRIES { return None; }
    var prefixes: seq<Prefix> := [];
    var i := 0;
    while i < |entries|
      invariant 0 <= i <= |entries| && |prefixes| == i
      invariant forall k | 0 <= k < i ::
        Readable(entries[k]) && prefixes[k] == Network(entries[k].address, entries[k].bits)
    {
      if !Readable(entries[i]) { return None; }
      prefixes := prefixes + [Network(entries[i].address, entries[i].bits)];
      i := i + 1;
    }
    list := Some(prefixes);
  }

  // ---------------------------------------------------------------- building the rules

  const DENIED: seq<Prefix> := [
    Prefix(0x0000_0000, 8), Prefix(0x0A00_0000, 8), Prefix(0x6440_0000, 10), Prefix(0x7F00_0000, 8),
    Prefix(0xA9FE_0000, 16), Prefix(0xAC10_0000, 12), Prefix(0xC0A8_0000, 16), Prefix(0xE000_0000, 4)]

  const EVERYWHERE: Prefix := Prefix(0, 0)

  function RulesFor(prefixes: seq<Prefix>, verdict: Verdict): seq<Rule> {
    if prefixes == [] then []
    else RulesFor(prefixes[..|prefixes| - 1], verdict) + [Rule(To4(prefixes[|prefixes| - 1]), verdict)]
  }

  function FirewallRules(allowlist: seq<Prefix>): seq<Rule> {
    [Rule(EstablishedOrRelated, Accept), Rule(OutLoopback, Accept)]
    + (RulesFor(allowlist, Accept)
       + (RulesFor(DENIED, Reject) + [Rule(AnyIPv6, Reject), Rule(To4(EVERYWHERE), Accept)]))
  }

  /** The rules of a namespace, in the order they are added. */
  method NamespaceRules(allowlist: seq<Prefix>) returns (rules: seq<Rule>)
    ensures rules == FirewallRules(allowlist)
  {
    rules := [Rule(EstablishedOrRelated, Accept), Rule(OutLoopback, Accept)];
    ghost var fixed := rules;
    var i := 0;
    while i < |allowlist|
      invariant 0 <= i <= |allowlist| && rules == fixed + RulesFor(allowlist[..i], Accept)
    {
      assert allowlist[..i + 1][..i] == allowlist[..i];
      rules := rules + [Rule(To4(allowlist[i]), Accept)];
      i := i + 1;
    }
    assert allowlist[..|allowlist|] == allowlist;
    fixed := rules;
    i := 0;
    while i < |DENIED|
      invariant 0 <= i <= |DENIED| && rules == fixed + RulesFor(DENIED[..i], Reject)
    {
      assert DENIED[..i + 1][..i] == DENIED[..i];
      rules := rules + [Rule(To4(DENIED[i]), Reject)];
      i := i + 1;
    }
    assert DENIED[..|DENIED|] == DENIED;
    rules := rules + [Rule(AnyIPv6, Reject), Rule(To4(EVERYWHERE), Accept)];
  }

  // ---------------------------------------------------------------- the policy

  ghost predicate AllValid(prefixes: seq<Prefix>) {
    forall i | 0 <= i < |prefixes| :: ValidPrefix(prefixes[i])
  }

  /** The address lies in one of the networks. */
  ghost predicate Covered(prefixes: seq<Prefix>, a: Address)
    requires AllValid(prefixes)
  {
    exists i :: 0 <= i < |prefixes| && Contains(prefixes[i], a)
  }

  lemma {:induction false} RulesForFront(prefixes: seq<Prefix>, verdict: Verdict)
    requires prefixes != []
    ensures RulesFor(prefixes, verdict) == [Rule(To4(prefixes[0]), verdict)] + RulesFor(prefixes[1..], verdict)
  {
    if |prefixes| == 1 {
      assert prefixes[..0] == [] && prefixes[1..] == [];
    } else {
      var shorter := prefixes[..|prefixes| - 1];
      RulesForFront(shorter, verdict);
      assert shorter[1..] == prefixes[1..][..|prefixes| - 2];
    }
  }

  /** A block of rules with one verdict decides the packets to its networks and passes on the rest. */
  lemma {:induction false} BlockDecides(prefixes: seq<Prefix>, verdict: Verdict, tail: seq<Rule>, p: Packet)
    requires AllValid(prefixes) && ValidRules(tail)
    ensures ValidRules(RulesFor(prefixes, verdict) + tail)
    ensures Evaluate(RulesFor(prefixes, verdict) + tail, p) ==
            if p.destination.V4? && Covered(prefixes, p.destination.address) then verdict else Evaluate(tail, p)
    decreases |prefixes|
  {
    if prefixes == [] {
      assert RulesFor(prefixes, verdict) + tail == tail;
    } else {
      var rest := prefixes[1..];
      RulesForFront(prefixes, verdict);
      BlockDecides(rest, verdict, tail, p);
      var rules := RulesFor(prefixes, verdict) + tail;
      assert rules == [Rule(To4(prefixes[0]), verdict)] + (RulesFor(rest, verdict) + tail);
      assert rules[1..] == RulesFor(rest, verdict) + tail;
      if p.destination.V4? {
        CoveredFront(prefixes, p.destination.address);
      }
    }
  }

  lemma CoveredFront(prefixes: seq<Prefix>, a: Address)
    requires AllValid(prefixes) && prefixes != []
    ensures Covered(prefixes, a) <==> Contains(prefixes[0], a) || Covered(prefixes[1..], a)
  {
    var rest := prefixes[1..];
    if Covered(rest, a) {
      var i :| 0 <= i < |rest| && Contains(rest[i], a);
      assert Contains(prefixes[i + 1], a);
    }
    if Covered(prefixes, a) && !Contains(prefixes[0], a) {
      var i :| 0 <= i < |prefixes| && Contains(prefixes[i], a);
      assert Contains(rest[i - 1], a);
    }
  }

  lemma {:induction false} NothingLeft(a: nat, host: nat)
    requires a < Power(host)
    ensures Leading(a, host) == 0
    decreases host
  {
    if host > 0 { NothingLeft(a / 2, host - 1); }
  }

  lemma EverywhereContains(a: Address)
    ensures Contains(EVERYWHERE, a)
  {
    assert Power(8) == 256;
    assert Power(16) == 256 * Power(8);
    assert Power(24) == 256 * Power(16);
    assert Power(32) == 256 * Power(24);
    NothingLeft(a, 32);
    NothingLeft(0, 32);
  }

  lemma DeniedValid()
    ensures AllValid(DENIED)
  {
  }

  /** The leading and the second number of an address in dotted notation. */
  function First(a: Address): int { a / 0x100_0000 }

  function Second(a: Address): int { a / 0x1_0000 % 0x100 }

  /** The addresses that are not to be reached without being allowlisted: this network, the private, shared,
      loopback and link-local ones, and multicast. */
  predicate Internal(a: Address) {
    || First(a) in {0, 10, 127} || 224 <= First(a) < 240
    || (First(a) == 100 && 64 <= Second(a) < 128) || (First(a) == 169 && Second(a) == 254)
    || (First(a) == 172 && 16 <= Second(a) < 32) || (First(a) == 192 && Second(a) == 168)
  }

  lemma {:induction false} ClearedMultiple(k: nat, host: nat)
    ensures Cleared(k * Power(host), host) == k * Power(host)
    decreases host
  {
    if host > 0 {
      assert k * Power(host) == 2 * (k * Power(host - 1));
      ClearedMultiple(k, host - 1);
    }
  }

  /** A network whose host bits are clear is a block from its base on. */
  lemma AlignedBlock(p: Prefix, k: nat, size: nat, a: Address)
    requires ValidPrefix(p) && size == Power(32 - p.bits) && p.base == k * size
    ensures Contains(p, a) <==> k * size <= a < (k + 1) * size
  {
    ClearedMultiple(k, 32 - p.bits);
    LeadingIsBlock(p.base, a, 32 - p.bits);
    assert (k + 1) * size == k * size + size;
  }

  lemma Powers()
    ensures Power(16) == 0x1_0000 && Power(20) == 0x10_0000 && Power(22) == 0x40_0000
    ensures Power(24) == 0x100_0000 && Power(28) == 0x1000_0000
  {
    assert Power(16) == 256 * Power(8) && Power(8) == 256;
    assert Power(20) == 16 * Power(16) && Power(22) == 4 * Power(20);
    assert Power(24) == 4 * Power(22) && Power(28) == 16 * Power(24);
  }

  lemma CoveredDenied(a: Address)
    requires AllValid(DENIED)
    ensures Covered(DENIED, a) <==>
      || Contains(DENIED[0], a) || Contains(DENIED[1], a) || Contains(DENIED[2], a) || Contains(DENIED[3], a)
      || Contains(DENIED[4], a) || Contains(DENIED[5], a) || Contains(DENIED[6], a) || Contains(DENIED[7], a)
  {
    hide Contains;
  }

  lemma InternalBounds(a: Address)
    ensures Internal(a) <==>
      || a < 0x100_0000 || 0xA00_0000 <= a < 0xB00_0000 || 0x6440_0000 <= a < 0x6480_0000
      || 0x7F00_0000 <= a < 0x8000_0000 || 0xA9FE_0000 <= a < 0xA9FF_0000 || 0xAC10_0000 <= a < 0xAC20_0000
      || 0xC0A8_0000 <= a < 0xC0A9_0000 || 0xE000_0000 <= a < 0xF000_0000
  {
  }

  lemma DeniedBounds(a: Address)
    requires AllValid(DENIED)
    ensures Covered(DENIED, a) <==>
      || a < 0x100_0000 || 0xA00_0000 <= a < 0xB00_0000 || 0x6440_0000 <= a < 0x6480_0000
      || 0x7F00_0000 <= a < 0x8000_0000 || 0xA9FE_0000 <= a < 0xA9FF_0000 || 0xAC10_0000 <= a < 0xAC20_0000
      || 0xC0A8_0000 <= a < 0xC0A9_0000 || 0xE000_0000 <= a < 0xF000_0000
  {
    CoveredDenied(a);
    Powers();
    hide Contains, Covered, Power;
    AlignedBlock(DENIED[0], 0, 0x100_0000, a);
    AlignedBlock(DENIED[1], 10, 0x100_0000, a);
    AlignedBlock(DENIED[2], 401, 0x40_0000, a);
    AlignedBlock(DENIED[3], 127, 0x100_0000, a);
    AlignedBlock(DENIED[4], 43518, 0x1_0000, a);
    AlignedBlock(DENIED[5], 2753, 0x10_0000, a);
    AlignedBlock(DENIED[6], 49320, 0x1_0000, a);
    AlignedBlock(DENIED[7], 14, 0x1000_0000, a);
  }

  /** The denied networks are exactly the internal addresses. */
  lemma DeniedIsInternal(a: Address)
    ensures AllValid(DENIED)
    ensures Covered(DENIED, a) <==> Internal(a)
  {
    DeniedValid();
    hide Covered, Internal;
    DeniedBounds(a);
    InternalBounds(a);
  }

  /** What the policy says of a packet. */
  ghost function Intended(allowlist: seq<Prefix>, p: Packet): Verdict
    requires AllValid(allowlist)
  {
    if p.established || p.loopback then Accept
    else if p.destination.V6? then Reject
    else if Covered(allowlist, p.destination.address) || !Internal(p.destination.address) then Accept
    else Reject
  }

  /** For every allowlist and every packet, first-match evaluation of the rules gives the policy's verdict:
      a new packet that does not leave by the loopback is accepted if and only if it is IPv4 and its
      destination is allowlisted or not internal, and is otherwise rejected. */
  lemma RulesImplementPolicy(allowlist: seq<Prefix>, p: Packet)
    requires AllValid(allowlist)
    ensures ValidRules(FirewallRules(allowlist))
    ensures Evaluate(FirewallRules(allowlist), p) == Intended(allowlist, p)
  {
    DeniedValid();
    var last := [Rule(AnyIPv6, Reject), Rule(To4(EVERYWHERE), Accept)];
    var denying := RulesFor(DENIED, Reject) + last;
    var allowing := RulesFor(allowlist, Accept) + denying;
    BlockDecides(DENIED, Reject, last, p);
    BlockDecides(allowlist, Accept, denying, p);
    FixedRulesFirst(allowing, p);
    LastRules(p);
    if p.destination.V4? { DeniedIsInternal(p.destination.address); }
  }

  lemma LastRules(p: Packet)
    ensures var last := [Rule(AnyIPv6, Reject), Rule(To4(EVERYWHERE), Accept)];
            ValidRules(last) && Evaluate(last, p) == if p.destination.V6? then Reject else Accept
  {
    var last := [Rule(AnyIPv6, Reject), Rule(To4(EVERYWHERE), Accept)];
    assert last[1..] == [Rule(To4(EVERYWHERE), Accept)];
    if p.destination.V4? { EverywhereContains(p.destination.address); }
  }

  lemma FixedRulesFirst(tail: seq<Rule>, p: Packet)
    requires ValidRules(tail)
    ensures var rules := [Rule(EstablishedOrRelated, Accept), Rule(OutLoopback, Accept)] + tail;
            ValidRules(rules) && Evaluate(rules, p) == if p.established || p.loopback then Accept else Evaluate(tail, p)
  {
    var rules := [Rule(EstablishedOrRelated, Accept), Rule(OutLoopback, Accept)] + tail;
    assert rules[1..] == [Rule(OutLoopback, Accept)] + tail;
    assert rules[1..][1..] == tail;
  }

  /** Some entry, with its host bits as written, agrees with the address on the entry's leading bits. */
  ghost predicate Listed(entries: seq<Configured>, a: Address) {
    exists i :: 0 <= i < |entries| && Readable(entries[i]) && Contains(Prefix(entries[i].address, entries[i].bits), a)
  }

  /** From the configured allowlist to the verdict on a new packet that leaves by another interface. */
  method Admits(entries: seq<Configured>, a: Address) returns (verdict: Option<Verdict>)
    ensures verdict.Some? <==>
      |entries| <= 64 && forall i | 0 <= i < |entries| :: entries[i].CIDR4? && entries[i].bits <= 32
    ensures verdict.Some? ==> verdict.value == if Listed(entries, a) || !Internal(a) then Accept else Reject
  {
    var list := ParseAllowlist(entries);
    if list.None? { return None; }
    var rules := NamespaceRules(list.value);
    var p := Packet(false, false, V4(a));
    RulesImplementPolicy(list.value, p);
    verdict := Some(Evaluate(rules, p));
    forall i | 0 <= i < |entries|
      ensures Contains(list.value[i], a) <==> Contains(Prefix(entries[i].address, entries[i].bits), a)
    {
      NetworkIsBlock(entries[i].address, entries[i].bits, a);
    }
  }
}
