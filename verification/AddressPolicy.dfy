/**
 Which targets the proxy may dial.  The library predicates on addresses are written
 on bytes, the block list on masks, the firewall's bogon set on intervals; the
 theorems say that they draw the same line.
 */
module AddressPolicy {
  import opened Wrappers
  import opened Prefixes
  import opened AddressPool

  const V6TOP: nat := 0x1_0000_0000_0000_0000_0000_0000_0000_0000
  const LOW96: nat := 0x1_0000_0000_0000_0000_0000_0000
  const MAPPED: nat := 0xffff_0000_0000

  datatype IP = Nil | V4(a: nat) | V6(a: nat) {
    ghost predicate Valid() {
      (V4? ==> a < TOP) && (V6? ==> a < V6TOP)
    }

    /** IPv4-mapped forms (section 2.5.5.2 of RFC 4291) become IPv4. */
    function To4(): IP {
      if V6? && MAPPED <= a < MAPPED + TOP then V4(a - MAPPED) else this
    }
  }

  function Quad(a: nat, b: nat, c: nat, d: nat): nat {
    ((a * 256 + b) * 256 + c) * 256 + d
  }

  /** An IPv6 prefix whose length is at most 32, from its first two groups. */
  function Head(g0: nat, g1: nat, bits: nat): Prefix {
    Prefix(128, (g0 * 0x1_0000 + g1) * LOW96, bits)
  }

  function Byte(a: nat, k: nat): nat
    requires k < 2
  {
    if k == 0 then a / 0x100_0000 else a / 0x1_0000 % 256
  }

  function Group(a: nat): nat {
    a / 0x1_0000_0000_0000_0000_0000_0000_0000
  }

  // ---------------------------------------------------------------- library predicates

  predicate IsPrivate(ip: IP) {
    match ip
    case Nil => false
    case V4(a) =>
      || Byte(a, 0) == 10
      || (Byte(a, 0) == 172 && Byte(a, 1) - Byte(a, 1) % 16 == 16)
      || (Byte(a, 0) == 192 && Byte(a, 1) == 168)
    case V6(a) => var first := Group(a) / 256; first - first % 2 == 0xfc
  }

  predicate IsLoopback(ip: IP) {
    match ip
    case Nil => false
    case V4(a) => Byte(a, 0) == 127
    case V6(a) => a == 1
  }

  predicate IsLinkLocalUnicast(ip: IP) {
    match ip
    case Nil => false
    case V4(a) => Byte(a, 0) == 169 && Byte(a, 1) == 254
    case V6(a) => Group(a) - Group(a) % 64 == 0xfe80
  }

  predicate IsLinkLocalMulticast(ip: IP) {
    match ip
    case Nil => false
    case V4(a) => a / 256 == Quad(0, 224, 0, 0)
    case V6(a) => Group(a) / 256 == 0xff && Group(a) % 16 == 2
  }

  predicate IsMulticast(ip: IP) {
    match ip
    case Nil => false
    case V4(a) => Byte(a, 0) - Byte(a, 0) % 16 == 0xe0
    case V6(a) => Group(a) / 256 == 0xff
  }

  predicate IsUnspecified(ip: IP) {
    !ip.Nil? && ip.a == 0
  }

  predicate IsGlobalUnicast(ip: IP) {
    && !ip.Nil?
    && ip != V4(TOP - 1)
    && !IsUnspecified(ip)
    && !IsLoopback(ip)
    && !IsMulticast(ip)
    && !IsLinkLocalUnicast(ip)
  }

  predicate ClassBlocked(ip: IP) {
    || IsPrivate(ip)
    || IsLoopback(ip)
    || IsLinkLocalUnicast(ip)
    || IsLinkLocalMulticast(ip)
    || IsMulticast(ip)
    || IsUnspecified(ip)
    || !IsGlobalUnicast(ip)
  }

  // ---------------------------------------------------------------- the block list

  const RELAY_6TO4 := Prefix(32, Quad(192, 88, 99, 0), 24)

  const BLOCKED4: seq<Prefix> := [
    Prefix(32, Quad(0, 0, 0, 0), 8),
    Prefix(32, Quad(100, 64, 0, 0), 10),
    Prefix(32, Quad(192, 0, 0, 0), 24),
    Prefix(32, Quad(192, 0, 2, 0), 24),
    RELAY_6TO4,
    Prefix(32, Quad(198, 18, 0, 0), 15),
    Prefix(32, Quad(198, 51, 100, 0), 24),
    Prefix(32, Quad(203, 0, 113, 0), 24),
    Prefix(32, Quad(240, 0, 0, 0), 4)
  ]

  const TEREDO_BLOCK := Head(0x2001, 0, 23)
  const ORCHID := Head(0x2001, 0x10, 28)
  const ORCHID_V2 := Head(0x2001, 0x20, 28)

  const BLOCKED6: seq<Prefix> := [
    Head(0x64, 0xff9b, 96),
    Prefix(128, 0x64_ff9b_0001_0000_0000_0000_0000_0000, 48),
    Head(0x100, 0, 64),
    TEREDO_BLOCK,
    Head(0x2001, 0xdb8, 32),
    ORCHID,
    ORCHID_V2,
    Head(0x2002, 0, 16),
    Head(0x3fff, 0, 20),
    Head(0x5f00, 0, 16),
    Head(0xfec0, 0, 10)
  ]

  const BLOCKED: seq<Prefix> := BLOCKED4 + BLOCKED6

  const BOGONS_LOW: seq<Prefix> := [
    Prefix(32, Quad(0, 0, 0, 0), 8),
    Prefix(32, Quad(10, 0, 0, 0), 8),
    Prefix(32, Quad(100, 64, 0, 0), 10),
    Prefix(32, Quad(127, 0, 0, 0), 8),
    Prefix(32, Quad(169, 254, 0, 0), 16),
    Prefix(32, Quad(172, 16, 0, 0), 12),
    Prefix(32, Quad(192, 0, 0, 0), 24)
  ]

  const BOGONS_HIGH: seq<Prefix> := [
    Prefix(32, Quad(192, 0, 2, 0), 24),
    Prefix(32, Quad(192, 168, 0, 0), 16),
    Prefix(32, Quad(198, 18, 0, 0), 15),
    Prefix(32, Quad(198, 51, 100, 0), 24),
    Prefix(32, Quad(203, 0, 113, 0), 24),
    Prefix(32, Quad(224, 0, 0, 0), 4),
    Prefix(32, Quad(240, 0, 0, 0), 4)
  ]

  /** The firewall's martian sources. */
  const BOGONS4: seq<Prefix> := BOGONS_LOW + BOGONS_HIGH

  /** IPv6 ranges that the library predicates alone keep out. */
  const CLASSES6: seq<Prefix> := [
    Prefix(128, 0, 128),
    Prefix(128, 1, 128),
    Head(0xfc00, 0, 7),
    Head(0xfe80, 0, 10),
    Head(0xff00, 0, 8)
  ]

  ghost predicate InAny(list: seq<Prefix>, a: nat) {
    exists k :: 0 <= k < |list| && list[k].bits <= list[k].width && list[k].Has(a)
  }

  predicate NetContains(p: Prefix, ip: IP) {
    match ip
    case Nil => false
    case V4(a) => MaskContains(ToBits(p.base, p.width), p.bits, ToBits(a, 32))
    case V6(a) => MaskContains(ToBits(p.base, p.width), p.bits, ToBits(a, 128))
  }

  ghost predicate ListBlocks(list: seq<Prefix>, ip: IP) {
    exists k :: 0 <= k < |list| && NetContains(list[k], ip)
  }

  ghost predicate IsPublic(ip: IP) {
    && !ip.Nil?
    && !ClassBlocked(ip.To4())
    && !ListBlocks(BLOCKED, ip.To4())
  }

  method IsPublicIP(address: IP) returns (public: bool)
    ensures public <==> IsPublic(address)
  {
    if address.Nil? {
      return false;
    }
    var ip := address.To4();
    if ClassBlocked(ip) {
      return false;
    }
    var blocked := Blocks(BLOCKED, ip);
    public := !blocked;
  }

  method Blocks(list: seq<Prefix>, ip: IP) returns (blocked: bool)
    ensures blocked <==> ListBlocks(list, ip)
  {
    for k := 0 to |list|
      invariant forall j :: 0 <= j < k ==> !NetContains(list[j], ip)
    {
      if NetContains(list[k], ip) {
        return true;
      }
    }
    blocked := false;
  }

  // ---------------------------------------------------------------- the IPv4 line

  lemma Pow2Sizes()
    ensures Pow2(8) == 0x100 && Pow2(16) == 0x1_0000 && Pow2(17) == 0x2_0000 && Pow2(20) == 0x10_0000
    ensures Pow2(22) == 0x40_0000 && Pow2(24) == 0x100_0000 && Pow2(28) == 0x1000_0000 && Pow2(32) == TOP
  {
    assert Pow2(8) == 256;
    Pow2Add(8, 8);
    Pow2Add(16, 8);
    Pow2Add(16, 4);
    Pow2Add(20, 2);
    Pow2Add(24, 4);
    Pow2Add(16, 16);
  }

  /** For lists of valid prefixes of one width, masks and intervals agree. */
  lemma ListIsIntervals(list: seq<Prefix>, ip: IP)
    requires ip.Valid() && !ip.Nil?
    requires forall k :: 0 <= k < |list| ==> list[k].Valid() && list[k].width == (if ip.V4? then 32 else 128)
    ensures ListBlocks(list, ip) <==> InAny(list, ip.a)
  {
    Pow2Sizes();
    Pow2Add(32, 32);
    Pow2Add(64, 64);
    forall k | 0 <= k < |list| ensures NetContains(list[k], ip) <==> list[k].Has(ip.a) {
      PrefixMask(list[k], ip.a);
    }
  }

  /** A prefix of another width never matches. */
  lemma OtherWidthNeverBlocks(list: seq<Prefix>, ip: IP)
    requires forall k :: 0 <= k < |list| ==> list[k].width != (if ip.V4? then 32 else 128)
    ensures !ListBlocks(list, ip)
  {
  }

  lemma ListSplit(a: seq<Prefix>, b: seq<Prefix>, ip: IP)
    ensures ListBlocks(a + b, ip) <==> ListBlocks(a, ip) || ListBlocks(b, ip)
  {
    if ListBlocks(a, ip) {
      var k :| 0 <= k < |a| && NetContains(a[k], ip);
      assert (a + b)[k] == a[k];
    }
    if ListBlocks(b, ip) {
      var k :| 0 <= k < |b| && NetContains(b[k], ip);
      assert (a + b)[|a| + k] == b[k];
    }
  }

  lemma Blocked4Valid()
    ensures forall k :: 0 <= k < |BLOCKED4| ==> BLOCKED4[k].Valid() && BLOCKED4[k].width == 32
  {
    Pow2Sizes();
  }

  lemma Blocked4Intervals(a: nat)
    ensures InAny(BLOCKED4, a) <==>
            || a < Quad(1, 0, 0, 0)
            || Quad(100, 64, 0, 0) <= a < Quad(100, 128, 0, 0)
            || Quad(192, 0, 0, 0) <= a < Quad(192, 0, 1, 0)
            || Quad(192, 0, 2, 0) <= a < Quad(192, 0, 3, 0)
            || Quad(192, 88, 99, 0) <= a < Quad(192, 88, 100, 0)
            || Quad(198, 18, 0, 0) <= a < Quad(198, 20, 0, 0)
            || Quad(198, 51, 100, 0) <= a < Quad(198, 51, 101, 0)
            || Quad(203, 0, 113, 0) <= a < Quad(203, 0, 114, 0)
            || Quad(240, 0, 0, 0) <= a < TOP
  {
    Pow2Sizes();
    var l := BLOCKED4;
    assert l[0].Has(a) <==> a < Quad(1, 0, 0, 0);
    assert l[1].Has(a) <==> Quad(100, 64, 0, 0) <= a < Quad(100, 128, 0, 0);
    assert l[2].Has(a) <==> Quad(192, 0, 0, 0) <= a < Quad(192, 0, 1, 0);
    assert l[3].Has(a) <==> Quad(192, 0, 2, 0) <= a < Quad(192, 0, 3, 0);
    assert l[4].Has(a) <==> Quad(192, 88, 99, 0) <= a < Quad(192, 88, 100, 0);
    assert l[5].Has(a) <==> Quad(198, 18, 0, 0) <= a < Quad(198, 20, 0, 0);
    assert l[6].Has(a) <==> Quad(198, 51, 100, 0) <= a < Quad(198, 51, 101, 0);
    assert l[7].Has(a) <==> Quad(203, 0, 113, 0) <= a < Quad(203, 0, 114, 0);
    assert l[8].Has(a) <==> Quad(240, 0, 0, 0) <= a < TOP;
  }

  lemma InAnySplit(x: seq<Prefix>, y: seq<Prefix>, a: nat)
    ensures InAny(x + y, a) <==> InAny(x, a) || InAny(y, a)
  {
    if InAny(x, a) {
      var k :| 0 <= k < |x| && x[k].bits <= x[k].width && x[k].Has(a);
      assert (x + y)[k] == x[k];
    }
    if InAny(y, a) {
      var k :| 0 <= k < |y| && y[k].bits <= y[k].width && y[k].Has(a);
      assert (x + y)[|x| + k] == y[k];
    }
  }

  lemma LowBogons(a: nat)
    ensures InAny(BOGONS_LOW, a) <==>
            || a < Quad(1, 0, 0, 0)
            || Quad(10, 0, 0, 0) <= a < Quad(11, 0, 0, 0)
            || Quad(100, 64, 0, 0) <= a < Quad(100, 128, 0, 0)
            || Quad(127, 0, 0, 0) <= a < Quad(128, 0, 0, 0)
            || Quad(169, 254, 0, 0) <= a < Quad(169, 255, 0, 0)
            || Quad(172, 16, 0, 0) <= a < Quad(172, 32, 0, 0)
            || Quad(192, 0, 0, 0) <= a < Quad(192, 0, 1, 0)
  {
    Pow2Sizes();
    var l := BOGONS_LOW;
    assert l[0].Has(a) <==> a < Quad(1, 0, 0, 0);
    assert l[1].Has(a) <==> Quad(10, 0, 0, 0) <= a < Quad(11, 0, 0, 0);
    assert l[2].Has(a) <==> Quad(100, 64, 0, 0) <= a < Quad(100, 128, 0, 0);
    assert l[3].Has(a) <==> Quad(127, 0, 0, 0) <= a < Quad(128, 0, 0, 0);
    assert l[4].Has(a) <==> Quad(169, 254, 0, 0) <= a < Quad(169, 255, 0, 0);
    assert l[5].Has(a) <==> Quad(172, 16, 0, 0) <= a < Quad(172, 32, 0, 0);
    assert l[6].Has(a) <==> Quad(192, 0, 0, 0) <= a < Quad(192, 0, 1, 0);
  }

  lemma HighBogons(a: nat)
    ensures InAny(BOGONS_HIGH, a) <==>
            || Quad(192, 0, 2, 0) <= a < Quad(192, 0, 3, 0)
            || Quad(192, 168, 0, 0) <= a < Quad(192, 169, 0, 0)
            || Quad(198, 18, 0, 0) <= a < Quad(198, 20, 0, 0)
            || Quad(198, 51, 100, 0) <= a < Quad(198, 51, 101, 0)
            || Quad(203, 0, 113, 0) <= a < Quad(203, 0, 114, 0)
            || Quad(224, 0, 0, 0) <= a < TOP
  {
    Pow2Sizes();
    var l := BOGONS_HIGH;
    assert l[0].Has(a) <==> Quad(192, 0, 2, 0) <= a < Quad(192, 0, 3, 0);
    assert l[1].Has(a) <==> Quad(192, 168, 0, 0) <= a < Quad(192, 169, 0, 0);
    assert l[2].Has(a) <==> Quad(198, 18, 0, 0) <= a < Quad(198, 20, 0, 0);
    assert l[3].Has(a) <==> Quad(198, 51, 100, 0) <= a < Quad(198, 51, 101, 0);
    assert l[4].Has(a) <==> Quad(203, 0, 113, 0) <= a < Quad(203, 0, 114, 0);
    assert l[5].Has(a) <==> Quad(224, 0, 0, 0) <= a < Quad(240, 0, 0, 0);
    assert l[6].Has(a) <==> Quad(240, 0, 0, 0) <= a < TOP;
  }

  lemma ClassIntervals4(a: nat)
    requires a < TOP
    ensures ClassBlocked(V4(a)) <==>
            || a == 0
            || Quad(10, 0, 0, 0) <= a < Quad(11, 0, 0, 0)
            || Quad(127, 0, 0, 0) <= a < Quad(128, 0, 0, 0)
            || Quad(169, 254, 0, 0) <= a < Quad(169, 255, 0, 0)
            || Quad(172, 16, 0, 0) <= a < Quad(172, 32, 0, 0)
            || Quad(192, 168, 0, 0) <= a < Quad(192, 169, 0, 0)
            || Quad(224, 0, 0, 0) <= a < Quad(240, 0, 0, 0)
            || a == TOP - 1
  {
    assert IsPrivate(V4(a)) <==>
           || Quad(10, 0, 0, 0) <= a < Quad(11, 0, 0, 0)
           || Quad(172, 16, 0, 0) <= a < Quad(172, 32, 0, 0)
           || Quad(192, 168, 0, 0) <= a < Quad(192, 169, 0, 0);
    assert IsLinkLocalMulticast(V4(a)) ==> IsMulticast(V4(a));
    assert IsMulticast(V4(a)) <==> Quad(224, 0, 0, 0) <= a < Quad(240, 0, 0, 0);
    assert IsLinkLocalUnicast(V4(a)) <==> Quad(169, 254, 0, 0) <= a < Quad(169, 255, 0, 0);
  }

  lemma Blocked6Width()
    ensures forall k :: 0 <= k < |BLOCKED6| ==> BLOCKED6[k].width == 128
  {
  }

  lemma BlockedList4(a: nat)
    requires a < TOP
    ensures ListBlocks(BLOCKED, V4(a)) <==> InAny(BLOCKED4, a)
  {
    ListSplit(BLOCKED4, BLOCKED6, V4(a));
    Blocked6Width();
    OtherWidthNeverBlocks(BLOCKED6, V4(a));
    Blocked4Valid();
    ListIsIntervals(BLOCKED4, V4(a));
  }

  lemma PublicV4ByLists(a: nat)
    requires a < TOP
    ensures IsPublic(V4(a)) <==> !ClassBlocked(V4(a)) && !InAny(BLOCKED4, a)
  {
    BlockedList4(a);
  }

  /** The same line twice: classes plus block list, bogons plus the 6to4 relay range. */
  lemma SameLine4(a: nat)
    requires a < TOP
    ensures ClassBlocked(V4(a)) || InAny(BLOCKED4, a) <==> InAny(BOGONS4, a) || RELAY_6TO4.Has(a)
  {
    Blocked4Intervals(a);
    InAnySplit(BOGONS_LOW, BOGONS_HIGH, a);
    LowBogons(a);
    HighBogons(a);
    ClassIntervals4(a);
    assert RELAY_6TO4.Has(a) <==> Quad(192, 88, 99, 0) <= a < Quad(192, 88, 100, 0) by {
      Pow2Sizes();
    }
  }

  /** IPv4: public means outside the firewall's bogon set and the 6to4 relay range. */
  lemma PublicV4IsOutsideBogons(a: nat)
    requires a < TOP
    ensures IsPublic(V4(a)) <==> !InAny(BOGONS4, a) && !RELAY_6TO4.Has(a)
  {
    PublicV4ByLists(a);
    SameLine4(a);
  }

  /** The same in numbers. */
  lemma PublicV4InNumbers(a: nat)
    requires a < 0x1_0000_0000
    ensures IsPublic(V4(a)) <==>
              && 0x0100_0000 <= a
              && !(0x0a00_0000 <= a < 0x0b00_0000)
              && !(0x6440_0000 <= a < 0x6480_0000)
              && !(0x7f00_0000 <= a < 0x8000_0000)
              && !(0xa9fe_0000 <= a < 0xa9ff_0000)
              && !(0xac10_0000 <= a < 0xac20_0000)
              && !(0xc000_0000 <= a < 0xc000_0100)
              && !(0xc000_0200 <= a < 0xc000_0300)
              && !(0xc058_6300 <= a < 0xc058_6400)
              && !(0xc0a8_0000 <= a < 0xc0a9_0000)
              && !(0xc612_0000 <= a < 0xc614_0000)
              && !(0xc633_6400 <= a < 0xc633_6500)
              && !(0xcb00_7100 <= a < 0xcb00_7200)
              && a < 0xe000_0000
  {
    PublicV4IsOutsideBogons(a);
    InAnySplit(BOGONS_LOW, BOGONS_HIGH, a);
    LowBogons(a);
    HighBogons(a);
    assert RELAY_6TO4.Has(a) <==> 0xc058_6300 <= a < 0xc058_6400 by {
      Pow2Sizes();
    }
  }

  /** An IPv4-mapped address is judged as the IPv4 address in it. */
  lemma MappedAgrees(a: nat)
    requires a < TOP
    ensures IsPublic(V6(0xffff_0000_0000 + a)) <==> !InAny(BOGONS4, a) && !RELAY_6TO4.Has(a)
  {
    PublicV4IsOutsideBogons(a);
    assert V6(MAPPED + a).To4() == V4(a);
  }

  // ---------------------------------------------------------------- the IPv6 line

  lemma Pow2Sizes6()
    ensures Pow2(0) == 1 && Pow2(64) == 0x1_0000_0000_0000_0000 && Pow2(80) == 0x1_0000_0000_0000_0000_0000
    ensures Pow2(96) == LOW96 && Pow2(100) == 16 * LOW96 && Pow2(105) == 512 * LOW96 && Pow2(108) == 4096 * LOW96
    ensures Pow2(112) == 0x1_0000 * LOW96 && Pow2(118) == 0x40_0000 * LOW96 && Pow2(120) == 0x100_0000 * LOW96
    ensures Pow2(121) == 0x200_0000 * LOW96 && Pow2(128) == V6TOP
  {
    Pow2Sizes();
    Pow2Add(32, 32);
    Pow2Add(64, 16);
    Pow2Add(64, 32);
    Pow2Add(96, 4);
    Pow2Add(100, 5);
    Pow2Add(100, 8);
    Pow2Add(96, 16);
    Pow2Add(112, 6);
    Pow2Add(112, 8);
    Pow2Add(120, 1);
    Pow2Add(120, 8);
    assert Pow2(4) == 16 && Pow2(5) == 32 && Pow2(6) == 64 && Pow2(1) == 2;
  }

  ghost predicate Valid6(p: Prefix) {
    p.Valid() && p.width == 128
  }

  lemma TranslationValid()
    ensures Valid6(BLOCKED6[0]) && Valid6(BLOCKED6[1])
  {
    Pow2Sizes();
    Pow2Sizes6();
  }

  lemma DiscardValid()
    ensures Valid6(BLOCKED6[2]) && Valid6(BLOCKED6[3])
  {
    Pow2Sizes();
    Pow2Sizes6();
  }

  lemma OrchidsValid()
    ensures Valid6(BLOCKED6[4]) && Valid6(BLOCKED6[5])
  {
    Pow2Sizes();
    Pow2Sizes6();
  }

  lemma OrchidV2Valid()
    ensures Valid6(BLOCKED6[6])
  {
    Pow2Sizes();
    Pow2Sizes6();
  }

  lemma Relay6Valid()
    ensures Valid6(BLOCKED6[7])
  {
    Pow2Sizes();
    Pow2Sizes6();
  }

  lemma RoutingValid()
    ensures Valid6(BLOCKED6[8]) && Valid6(BLOCKED6[9])
  {
    Pow2Sizes();
    Pow2Sizes6();
  }

  lemma SiteLocalValid()
    ensures Valid6(BLOCKED6[10])
  {
    Pow2Sizes();
    Pow2Sizes6();
  }

  /** Eleven entries, one by one. */
  lemma ElevenValid(l: seq<Prefix>)
    requires |l| == 11
    requires Valid6(l[0]) && Valid6(l[1]) && Valid6(l[2]) && Valid6(l[3])
    requires Valid6(l[4]) && Valid6(l[5]) && Valid6(l[6]) && Valid6(l[7])
    requires Valid6(l[8]) && Valid6(l[9]) && Valid6(l[10])
    ensures forall k | 0 <= k < |l| :: l[k].Valid() && l[k].width == 128
  {
  }

  lemma Blocked6Valid()
    ensures forall k | 0 <= k < |BLOCKED6| :: BLOCKED6[k].Valid() && BLOCKED6[k].width == 128
  {
    TranslationValid();
    DiscardValid();
    OrchidsValid();
    OrchidV2Valid();
    Relay6Valid();
    RoutingValid();
    SiteLocalValid();
    ElevenValid(BLOCKED6);
  }

  lemma ClassBounds6(a: nat)
    requires a < V6TOP
    ensures CLASSES6[0].Has(a) <==> a == 0
    ensures CLASSES6[1].Has(a) <==> a == 1
    ensures CLASSES6[2].Has(a) <==> 0xfc00_0000 * LOW96 <= a < 0xfe00_0000 * LOW96
    ensures CLASSES6[3].Has(a) <==> 0xfe80_0000 * LOW96 <= a < 0xfec0_0000 * LOW96
    ensures CLASSES6[4].Has(a) <==> 0xff00_0000 * LOW96 <= a
  {
    Pow2Sizes6();
  }

  lemma ClassTests6(a: nat)
    requires a < V6TOP
    ensures IsPrivate(V6(a)) <==> 0xfc00_0000 * LOW96 <= a < 0xfe00_0000 * LOW96
    ensures IsLinkLocalUnicast(V6(a)) <==> 0xfe80_0000 * LOW96 <= a < 0xfec0_0000 * LOW96
    ensures IsMulticast(V6(a)) <==> 0xff00_0000 * LOW96 <= a
  {
  }

  lemma ClassIntervals6(a: nat)
    requires a < V6TOP
    ensures ClassBlocked(V6(a)) <==> InAny(CLASSES6, a)
  {
    ClassBounds6(a);
    ClassTests6(a);
  }

  lemma Blocked4Width()
    ensures forall k :: 0 <= k < |BLOCKED4| ==> BLOCKED4[k].width == 32
  {
  }

  lemma BlockedList6(a: nat)
    requires a < V6TOP
    ensures ListBlocks(BLOCKED, V6(a)) <==> InAny(BLOCKED6, a)
  {
    ListSplit(BLOCKED4, BLOCKED6, V6(a));
    Blocked4Width();
    OtherWidthNeverBlocks(BLOCKED4, V6(a));
    Blocked6Valid();
    ListIsIntervals(BLOCKED6, V6(a));
  }

  /** IPv6 outside the mapped range: public means in none of these intervals. */
  lemma PublicV6(a: nat)
    requires a < V6TOP && !(MAPPED <= a < MAPPED + TOP)
    ensures IsPublic(V6(a)) <==> !InAny(CLASSES6, a) && !InAny(BLOCKED6, a)
  {
    BlockedList6(a);
    ClassIntervals6(a);
    assert V6(a).To4() == V6(a);
  }

  /** Translation, discard and the two lowest blocks, as intervals. */
  predicate LowBlocks6(a: nat) {
    || 0x64_ff9b * LOW96 <= a < 0x64_ff9b * LOW96 + 0x1_0000_0000
    || 0x64_ff9b_0001_0000_0000_0000_0000_0000 <= a < 0x64_ff9b_0002_0000_0000_0000_0000_0000
    || 0x100_0000 * LOW96 <= a < 0x100_0000 * LOW96 + 0x1_0000_0000_0000_0000
    || 0x2001_0000 * LOW96 <= a < 0x2001_0200 * LOW96
    || 0x2001_0db8 * LOW96 <= a < 0x2001_0db9 * LOW96
  }

  predicate HighBlocks6(a: nat) {
    || 0x2002_0000 * LOW96 <= a < 0x2003_0000 * LOW96
    || 0x3fff_0000 * LOW96 <= a < 0x3fff_1000 * LOW96
    || 0x5f00_0000 * LOW96 <= a < 0x5f01_0000 * LOW96
    || 0xfec0_0000 * LOW96 <= a < 0xff00_0000 * LOW96
  }

  predicate ClassBlocks6(a: nat) {
    || a == 0 || a == 1
    || 0xfc00_0000 * LOW96 <= a < 0xfe00_0000 * LOW96
    || 0xfe80_0000 * LOW96 <= a < 0xfec0_0000 * LOW96
    || 0xff00_0000 * LOW96 <= a
  }

  /** The prefix is this interval. */
  ghost predicate Spans(p: Prefix, lo: nat, hi: nat) {
    p.bits <= p.width && p.base == lo && p.base + p.Size() == hi
  }

  lemma TranslationSpan()
    ensures Spans(BLOCKED6[0], 0x64_ff9b * LOW96, 0x64_ff9b * LOW96 + 0x1_0000_0000)
  {
    Pow2Sizes();
    Pow2Sizes6();
  }

  lemma LocalTranslationSpan()
    ensures Spans(BLOCKED6[1], 0x64_ff9b_0001_0000_0000_0000_0000_0000, 0x64_ff9b_0002_0000_0000_0000_0000_0000)
  {
    Pow2Sizes();
    Pow2Sizes6();
  }

  lemma DiscardSpan()
    ensures Spans(BLOCKED6[2], 0x100_0000 * LOW96, 0x100_0000 * LOW96 + 0x1_0000_0000_0000_0000)
  {
    Pow2Sizes();
    Pow2Sizes6();
  }

  lemma ProtocolSpan()
    ensures Spans(BLOCKED6[3], 0x2001_0000 * LOW96, 0x2001_0200 * LOW96)
  {
    Pow2Sizes();
    Pow2Sizes6();
  }

  lemma DocumentationSpan()
    ensures Spans(BLOCKED6[4], 0x2001_0db8 * LOW96, 0x2001_0db9 * LOW96)
  {
    Pow2Sizes();
    Pow2Sizes6();
  }

  lemma OrchidSpan()
    ensures Spans(BLOCKED6[5], 0x2001_0010 * LOW96, 0x2001_0020 * LOW96)
  {
    Pow2Sizes();
    Pow2Sizes6();
  }

  lemma OrchidV2Span()
    ensures Spans(BLOCKED6[6], 0x2001_0020 * LOW96, 0x2001_0030 * LOW96)
  {
    Pow2Sizes();
    Pow2Sizes6();
  }

  lemma RelaySpan()
    ensures Spans(BLOCKED6[7], 0x2002_0000 * LOW96, 0x2003_0000 * LOW96)
  {
    Pow2Sizes();
    Pow2Sizes6();
  }

  lemma Documentation2Span()
    ensures Spans(BLOCKED6[8], 0x3fff_0000 * LOW96, 0x3fff_1000 * LOW96)
  {
    Pow2Sizes();
    Pow2Sizes6();
  }

  lemma RoutingSpan()
    ensures Spans(BLOCKED6[9], 0x5f00_0000 * LOW96, 0x5f01_0000 * LOW96)
  {
    Pow2Sizes();
    Pow2Sizes6();
  }

  lemma SiteLocalSpan()
    ensures Spans(BLOCKED6[10], 0xfec0_0000 * LOW96, 0xff00_0000 * LOW96)
  {
    Pow2Sizes();
    Pow2Sizes6();
  }

  ghost predicate LowSpans(l: seq<Prefix>)
    requires |l| == 11
  {
    && Spans(l[0], 0x64_ff9b * LOW96, 0x64_ff9b * LOW96 + 0x1_0000_0000)
    && Spans(l[1], 0x64_ff9b_0001_0000_0000_0000_0000_0000, 0x64_ff9b_0002_0000_0000_0000_0000_0000)
    && Spans(l[2], 0x100_0000 * LOW96, 0x100_0000 * LOW96 + 0x1_0000_0000_0000_0000)
    && Spans(l[3], 0x2001_0000 * LOW96, 0x2001_0200 * LOW96)
    && Spans(l[4], 0x2001_0db8 * LOW96, 0x2001_0db9 * LOW96)
    && Spans(l[5], 0x2001_0010 * LOW96, 0x2001_0020 * LOW96)
    && Spans(l[6], 0x2001_0020 * LOW96, 0x2001_0030 * LOW96)
  }

  ghost predicate HighSpans(l: seq<Prefix>)
    requires |l| == 11
  {
    && Spans(l[7], 0x2002_0000 * LOW96, 0x2003_0000 * LOW96)
    && Spans(l[8], 0x3fff_0000 * LOW96, 0x3fff_1000 * LOW96)
    && Spans(l[9], 0x5f00_0000 * LOW96, 0x5f01_0000 * LOW96)
    && Spans(l[10], 0xfec0_0000 * LOW96, 0xff00_0000 * LOW96)
  }

  lemma LowSpansHold(l: seq<Prefix>, a: nat)
    requires |l| == 11 && LowSpans(l)
    ensures LowBlocks6(a) <==>
            || l[0].Has(a) || l[1].Has(a) || l[2].Has(a) || l[3].Has(a) || l[4].Has(a) || l[5].Has(a) || l[6].Has(a)
  {}

  lemma HighSpansHold(l: seq<Prefix>, a: nat)
    requires |l| == 11 && HighSpans(l)
    ensures HighBlocks6(a) <==> l[7].Has(a) || l[8].Has(a) || l[9].Has(a) || l[10].Has(a)
  {}

  /** Eleven entries, one by one. */
  lemma ElevenHold(l: seq<Prefix>, a: nat)
    requires |l| == 11 && forall k | 0 <= k < 11 :: l[k].bits <= l[k].width
    ensures InAny(l, a) <==>
            || l[0].Has(a) || l[1].Has(a) || l[2].Has(a) || l[3].Has(a) || l[4].Has(a) || l[5].Has(a)
            || l[6].Has(a) || l[7].Has(a) || l[8].Has(a) || l[9].Has(a) || l[10].Has(a)
  {}

  lemma SpansInNumbers(l: seq<Prefix>, a: nat)
    requires |l| == 11 && LowSpans(l) && HighSpans(l)
    ensures InAny(l, a) <==> LowBlocks6(a) || HighBlocks6(a)
  {
    assert forall k | 0 <= k < 11 :: l[k].bits <= l[k].width;
    ElevenHold(l, a);
    LowSpansHold(l, a);
    HighSpansHold(l, a);
  }

  lemma BlockedSpans()
    ensures |BLOCKED6| == 11 && LowSpans(BLOCKED6) && HighSpans(BLOCKED6)
  {
    TranslationSpan();
    LocalTranslationSpan();
    DiscardSpan();
    ProtocolSpan();
    DocumentationSpan();
    OrchidSpan();
    OrchidV2Span();
    RelaySpan();
    Documentation2Span();
    RoutingSpan();
    SiteLocalSpan();
  }

  /** Which IPv6 addresses outside the mapped range are public, in numbers. */
  lemma PublicV6InNumbers(a: nat)
    requires a < V6TOP && !(0xffff_0000_0000 <= a < 0x1_0000_0000_0000)
    ensures IsPublic(V6(a)) <==> !ClassBlocks6(a) && !LowBlocks6(a) && !HighBlocks6(a)
  {
    PublicV6(a);
    BlockedSpans();
    SpansInNumbers(BLOCKED6, a);
    ClassesInNumbers6(a);
  }

  lemma ClassesInNumbers6(a: nat)
    requires a < V6TOP
    ensures InAny(CLASSES6, a) <==> ClassBlocks6(a)
  {
    ClassBounds6(a);
  }

  /** The two ORCHID entries block nothing that 2001::/23 does not block already. */
  lemma OrchidEntriesAreRedundant(a: nat)
    ensures ORCHID.Has(a) || ORCHID_V2.Has(a) ==> TEREDO_BLOCK.Has(a)
    ensures InAny(BLOCKED6, a) <==> InAny(BLOCKED6[..5] + BLOCKED6[7..], a)
  {
    Pow2Sizes6();
    var l := BLOCKED6;
    assert l == l[..5] + (l[5..7] + l[7..]);
    InAnySplit(l[..5], l[5..7] + l[7..], a);
    InAnySplit(l[5..7], l[7..], a);
    InAnySplit(l[..5], l[7..], a);
    var middle := l[5..7];
    assert middle == [ORCHID, ORCHID_V2];
    assert l[..5][3] == TEREDO_BLOCK;
  }

  // ---------------------------------------------------------------- the dial loop

  datatype DialError = BadAddress | Forbidden | Unresolved | Failed(index: nat)

  /**
   `port` is the port text as a number, if it is one; `resolved` the resolver's answer;
   `connects` the candidates a connection attempt would succeed for.
   */
  method DialPublicTarget(wellFormed: bool, port: Option<int>, resolved: Option<seq<IP>>, connects: set<nat>)
    returns (r: Result<nat, DialError>, ghost dialed: seq<nat>)
    ensures !wellFormed ==> r == Err(BadAddress)
    ensures wellFormed && port != Some(80) && port != Some(443) ==> r == Err(Forbidden)
    ensures wellFormed && (port == Some(80) || port == Some(443)) && resolved.None? ==> r == Err(Unresolved)
    ensures r.Err? && !r.error.Failed? ==> dialed == []
    ensures dialed != [] ==> resolved.Some? && (port == Some(80) || port == Some(443))
    // A dial is only ever attempted to a public candidate.
    ensures forall k | 0 <= k < |dialed| :: dialed[k] < |resolved.value| && IsPublic(resolved.value[dialed[k]])
    ensures wellFormed && (port == Some(80) || port == Some(443)) && resolved.Some? ==>
      && (r.Ok? <==> exists i :: 0 <= i < |resolved.value| && IsPublic(resolved.value[i]) && i in connects)
      && (r.Ok? ==> && r.value < |resolved.value| && IsPublic(resolved.value[r.value]) && r.value in connects
                    && forall i | 0 <= i < r.value :: !(IsPublic(resolved.value[i]) && i in connects))
      && (r == Err(Forbidden) <==> forall i | 0 <= i < |resolved.value| :: !IsPublic(resolved.value[i]))
      // Otherwise the error of the last public candidate is reported.
      && (r.Err? && r.error.Failed? ==>
            && r.error.index < |resolved.value| && IsPublic(resolved.value[r.error.index])
            && forall i | r.error.index < i < |resolved.value| :: !IsPublic(resolved.value[i]))
  {
    dialed := [];
    if !wellFormed {
      return Err(BadAddress), dialed;
    }
    if port != Some(80) && port != Some(443) {
      return Err(Forbidden), dialed;
    }
    if resolved.None? {
      return Err(Unresolved), dialed;
    }
    r, dialed := DialCandidates(resolved.value, connects);
  }

  /** Dialing the first public candidate that connects; else the last public one's error. */
  method DialCandidates(ips: seq<IP>, connects: set<nat>) returns (r: Result<nat, DialError>, ghost dialed: seq<nat>)
    ensures forall k | 0 <= k < |dialed| :: dialed[k] < |ips| && IsPublic(ips[dialed[k]])
    ensures r.Ok? <==> exists i :: 0 <= i < |ips| && IsPublic(ips[i]) && i in connects
    ensures r.Ok? ==> && r.value < |ips| && IsPublic(ips[r.value]) && r.value in connects
                      && forall i | 0 <= i < r.value :: !(IsPublic(ips[i]) && i in connects)
    ensures r.Err? ==> r.error.Forbidden? || r.error.Failed?
    ensures r == Err(Forbidden) <==> forall i | 0 <= i < |ips| :: !IsPublic(ips[i])
    ensures r == Err(Forbidden) ==> dialed == []
    ensures r.Err? && r.error.Failed? ==>
              && r.error.index < |ips| && IsPublic(ips[r.error.index])
              && forall i | r.error.index < i < |ips| :: !IsPublic(ips[i])
  {
    dialed := [];
    var lastError: Option<nat> := None;
    for k := 0 to |ips|
      invariant forall i | 0 <= i < k :: !(IsPublic(ips[i]) && i in connects)
      invariant lastError.None? ==> dialed == [] && forall i | 0 <= i < k :: !IsPublic(ips[i])
      invariant lastError.Some? ==> lastError.value < k && IsPublic(ips[lastError.value])
      invariant lastError.Some? ==> forall i | lastError.value < i < k :: !IsPublic(ips[i])
      invariant forall j | 0 <= j < |dialed| :: dialed[j] < k && IsPublic(ips[dialed[j]])
    {
      var public := IsPublicIP(ips[k]);
      if !public {
        continue;
      }
      dialed := dialed + [k];
      if k in connects {
        return Ok(k), dialed;
      }
      lastError := Some(k);
    }
    if lastError.Some? {
      return Err(Failed(lastError.value)), dialed;
    }
    r := Err(Forbidden);
  }
}
