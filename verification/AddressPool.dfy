/** The peer address pool of the VPN service. */
module AddressPool {
  import opened Wrappers
  import opened Prefixes
  import opened FiniteSets

  const TOP: nat := 0x1_0000_0000

  lemma TopIsPow2()
    ensures Pow2(32) == TOP
  {
    assert Pow2(8) == 256;
    Pow2Add(8, 8);
    Pow2Add(16, 16);
  }

  /** What the text of a subnet parses to. */
  datatype Subnet = Unparsable | Six | Four(addr: nat, bits: nat)

  datatype PoolError = NotASubnet | NotFour | TooSmall

  /** The successor of an address; the last address has none. */
  function Next(a: nat): Option<nat> {
    if a + 1 < TOP then Some(a + 1) else None
  }

  datatype Pool = Pool(prefix: Prefix) {
    ghost predicate Valid() {
      prefix.width == 32 && prefix.bits <= 29 && prefix.Valid()
    }

    function Server(): nat {
      prefix.base + 1
    }

    function Broadcast(): nat
      requires prefix.bits <= prefix.width
    {
      prefix.base + prefix.Size() - 1
    }

    predicate Contains(a: Option<nat>)
      requires prefix.bits <= prefix.width
    {
      a.Some? && prefix.Has(a.value)
    }

    /** The addresses a peer may get lie strictly between server and broadcast. */
    predicate Assignable(a: nat)
      requires prefix.bits <= prefix.width
    {
      Server() < a < Broadcast()
    }

    /** The least assignable address from `a` on that is not used. */
    function LowestFrom(a: nat, used: set<nat>): (r: Option<nat>)
      requires prefix.bits <= prefix.width && Server() < a
      ensures r.Some? ==> a <= r.value && Assignable(r.value) && r.value !in used
      ensures forall x: nat | a <= x && Assignable(x) && (r.Some? ==> x < r.value) :: x in used
      decreases Broadcast() - a
    {
      if a >= Broadcast() then None
      else if a !in used then Some(a)
      else LowestFrom(a + 1, used)
    }

    function Lowest(used: set<nat>): Option<nat>
      requires prefix.bits <= prefix.width
    {
      LowestFrom(Server() + 1, used)
    }

    method Allocate(used: set<nat>) returns (r: Option<nat>)
      requires Valid()
      ensures r == Lowest(used)
      ensures r.Some? ==> Assignable(r.value) && r.value !in used
      ensures forall x: nat | Assignable(x) && (r.Some? ==> x < r.value) :: x in used
    {
      PoolShape(this);
      var a := Next(Server());
      while Contains(a)
        invariant a.Some? ==> Server() < a.value <= Broadcast() + 1
        invariant a.None? ==> Broadcast() + 1 == TOP && Lowest(used) == None
        invariant a.Some? ==> Lowest(used) == LowestFrom(a.value, used)
        decreases if a.Some? then TOP - a.value else 0
      {
        // With no successor in the prefix, `a` is the broadcast address and no peer's.
        if !Contains(Next(a.value)) {
          break;
        }
        if a.value !in used {
          return a;
        }
        a := Next(a.value);
      }
      r := None;
    }

    /** Addresses a pool can hand out: all but network, server and broadcast. */
    function Capacity(): int
      requires prefix.bits <= prefix.width
    {
      prefix.Size() - 3
    }

    /** The pool is exhausted exactly when every assignable address is taken. */
    lemma ExhaustedIff(used: set<nat>)
      requires Valid()
      ensures Lowest(used) == None <==> |set a | a in used && Assignable(a)| == Capacity()
    {
      PoolShape(this);
      var taken := set a | a in used && Assignable(a);
      var all := Interval(Server() + 1, Broadcast());
      assert taken <= all;
      if Lowest(used) == None {
        assert taken == all;
      } else {
        var free := Lowest(used).value;
        assert free in all && free !in taken;
        ProperSubset(taken, all, free);
      }
    }
  }

  lemma PoolShape(p: Pool)
    requires p.Valid()
    ensures p.prefix.Size() >= 8
    ensures p.Broadcast() < TOP
  {
    Pow2Monotone(3, p.prefix.width - p.prefix.bits);
    assert Pow2(3) == 8;
    PrefixFits(p.prefix);
    TopIsPow2();
  }

  method NewPool(cidr: Subnet) returns (r: Result<Pool, PoolError>)
    requires cidr.Four? ==> cidr.addr < TOP && cidr.bits <= 32
    ensures r.Ok? <==> cidr.Four? && cidr.bits <= 29
    ensures r.Ok? ==> r.value.Valid() && r.value.prefix.bits == cidr.bits && r.value.prefix.Has(cidr.addr)
    ensures cidr.Four? && cidr.bits > 29 ==> r == Err(TooSmall)
    ensures cidr.Unparsable? ==> r == Err(NotASubnet)
    ensures cidr.Six? ==> r == Err(NotFour)
  {
    if cidr.Unparsable? {
      return Err(NotASubnet);
    }
    if cidr.Six? {
      return Err(NotFour);
    }
    if cidr.bits > 29 {
      return Err(TooSmall);
    }
    var size := Pow2(32 - cidr.bits);
    MaskedIsValid(cidr.addr, size);
    var base := cidr.addr - cidr.addr % size;
    r := Ok(Pool(Prefix(32, base, cidr.bits)));
    TopIsPow2();
  }

  lemma MaskedIsValid(a: nat, m: nat)
    requires m > 0
    ensures (a - a % m) % m == 0 && 0 <= a - a % m <= a < a - a % m + m
  {
    assert a - a % m == m * (a / m);
    MulModZero(m, a / m);
  }
}
