/**
 IPv4 authority lists: canonical CIDR blocks (section 3.1 of RFC 4632), the private-space test
 (section 3 of RFC 1918) and the disjointness of authorities (edge/compiler/core.py, `_cidr_tuple`,
 `_networks_overlap`; edge/agent/security_core.py, `_require_authorized_ipv4_networks`).
 */
module Cidr {
  import opened Options

  const SPACE: int := 0x1_0000_0000

  function Pow2(n: nat): (p: nat)
    ensures p > 0
  {
    if n == 0 then 1 else 2 * Pow2(n - 1)
  }

  /** A network is its first address and its prefix length. */
  datatype Network = Network(first: nat, prefix: nat) {
    function Size(): (size: nat)
      requires prefix <= 32
      ensures size > 0
    {
      Pow2(32 - prefix)
    }

    /** What strict parsing of a canonical text guarantees. */
    predicate Canonical() {
      prefix <= 32 && first < SPACE && first % Size() == 0
    }

    function Last(): nat
      requires prefix <= 32
    {
      first + Size() - 1
    }

    predicate Holds(address: int)
      requires prefix <= 32
    {
      first <= address <= Last()
    }

    /** Membership as the library tests it: the address under the network mask is the network address. */
    predicate MaskHolds(address: nat)
      requires prefix <= 32
    {
      address - address % Size() == first
    }

    /** The library's overlap test: an end of one lies in the other. */
    predicate Overlaps(other: Network)
      requires prefix <= 32 && other.prefix <= 32
    {
      other.MaskHolds(first) || other.MaskHolds(Last()) || MaskHolds(other.first) || MaskHolds(other.Last())
    }
  }

  // ---------------------------------------------------------------- powers of two

  lemma {:induction false} Pow2Monotone(a: nat, b: nat)
    requires a <= b
    ensures Pow2(a) <= Pow2(b)
    ensures Pow2(b) % Pow2(a) == 0
    decreases b - a
  {
    if a < b {
      Pow2Monotone(a, b - 1);
      AlignedSum(Pow2(b - 1), Pow2(b - 1), Pow2(a));
    }
  }

  lemma MulAtLeast(k: int, m: nat)
    requires k >= 1
    ensures k * m >= m
  {
  }

  lemma Distribute(j: int, k: int, m: int)
    ensures (j - k) * m == j * m - k * m
    ensures (j + k) * m == j * m + k * m
  {
  }

  lemma Quotient(a: nat, m: nat)
    requires m > 0
    ensures a == (a / m) * m + a % m
  {
  }

  lemma MultipleModulo(q: nat, m: nat)
    requires m > 0
    ensures (q * m) % m == 0
  {
    Quotient(q * m, m);
    var d := (q * m) / m;
    Distribute(q, d, m);
    if q > d { MulAtLeast(q - d, m); }
    if q < d { MulAtLeast(d - q, m); Distribute(d, q, m); }
  }

  /** The next multiple of `m` above an aligned `a` is at least `a + m`. */
  lemma AlignedGap(a: nat, b: nat, m: nat)
    requires m > 0 && a % m == 0 && b % m == 0 && a < b
    ensures a + m <= b
  {
    var x, y := a / m, b / m;
    Quotient(a, m);
    Quotient(b, m);
    Distribute(y, x, m);
    if y > x { MulAtLeast(y - x, m); } else { Distribute(x, y, m); if x > y { MulAtLeast(x - y, m); } }
  }

  lemma AlignedSum(a: nat, b: nat, m: nat)
    requires m > 0 && a % m == 0 && b % m == 0
    ensures (a + b) % m == 0
  {
    Quotient(a, m);
    Quotient(b, m);
    Distribute(a / m, b / m, m);
    MultipleModulo(a / m + b / m, m);
  }

  /** Alignment to a larger block implies alignment to a smaller one. */
  lemma AlignedDown(a: nat, large: nat, small: nat)
    requires large > 0 && small > 0 && large % small == 0 && a % large == 0
    ensures a % small == 0
  {
    var q, s := a / large, large / small;
    Quotient(a, large);
    Quotient(large, small);
    assert q * large == (q * s) * small by { Associate(q, s, small); }
    MultipleModulo(q * s, small);
  }

  lemma Associate(q: int, s: int, m: int)
    ensures q * (s * m) == (q * s) * m
  {
  }

  // ---------------------------------------------------------------- blocks

  /** The gap lemma in interval form: a small aligned block starting inside a large aligned one ends inside it. */
  lemma BlockInside(first: nat, large: nat, start: nat, small: nat)
    requires small > 0 && large % small == 0 && large > 0
    requires first % small == 0 && start % small == 0
    ensures first <= start < first + large ==> start + small <= first + large
    ensures start < first ==> start + small <= first
  {
    AlignedSum(first, large, small);
    if start < first { AlignedGap(start, first, small); }
    if start < first + large { AlignedGap(start, first + large, small); }
  }

  /** A block is canonical exactly when it ends in the address space and its first address is under its own
      mask. */
  lemma CanonicalExactly(n: Network)
    ensures n.Canonical() <==> n.prefix <= 32 && n.Last() < 0x1_0000_0000 && n.MaskHolds(n.first)
  {
    if n.prefix <= 32 {
      Pow2Monotone(32 - n.prefix, 32);
      assert Pow2(32) == SPACE by { WholeSpace(); }
      MultipleModulo(0, n.Size());
      Quotient(n.first, n.Size());
      if n.first < SPACE && n.first % n.Size() == 0 { BlockInside(0, SPACE, n.first, n.Size()); }
    }
  }

  lemma WholeSpace()
    ensures Pow2(32) == SPACE
  {
    assert Pow2(8) == 256;
    assert Pow2(16) == 0x1_0000;
    assert Pow2(24) == 0x100_0000;
  }

  /** Two canonical blocks are nested or disjoint. */
  lemma NestedOrDisjoint(a: Network, b: Network)
    requires a.Canonical() && b.Canonical() && a.prefix <= b.prefix
    ensures (forall x | b.Holds(x) :: a.Holds(x)) || (forall x | b.Holds(x) :: !a.Holds(x))
  {
    Pow2Monotone(32 - b.prefix, 32 - a.prefix);
    AlignedDown(a.first, a.Size(), b.Size());
    BlockInside(a.first, a.Size(), b.first, b.Size());
    hide Network.Canonical, Pow2;
  }

  /** The mask test is membership in the block. */
  lemma MaskIsRange(n: Network, address: nat)
    requires n.Canonical()
    ensures n.MaskHolds(address) <==> n.Holds(address)
  {
    MaskNumber(n.first, n.Size(), address);
  }

  lemma MaskNumber(first: nat, m: nat, address: nat)
    requires m > 0 && first % m == 0
    ensures address - address % m == first <==> first <= address < first + m
  {
    Quotient(address, m);
    MultipleModulo(address / m, m);
    var base := address - address % m;
    assert base % m == 0;
    if base > first { AlignedGap(first, base, m); }
    if base < first { AlignedGap(base, first, m); }
  }

  /** The overlap test is true exactly when some address lies in both blocks. */
  lemma OverlapIsShared(a: Network, b: Network)
    requires a.Canonical() && b.Canonical()
    ensures a.Overlaps(b) <==> exists x: nat :: a.Holds(x) && b.Holds(x)
  {
    MaskIsRange(b, a.first);
    MaskIsRange(b, a.Last());
    MaskIsRange(a, b.first);
    MaskIsRange(a, b.Last());
    hide Network.MaskHolds, Network.Canonical, Pow2;
    if a.Overlaps(b) {
      assert a.Holds(a.first) && a.Holds(a.Last()) && b.Holds(b.first) && b.Holds(b.Last());
    }
  }

  predicate AllCanonical(ns: seq<Network>) {
    forall i | 0 <= i < |ns| :: ns[i].Canonical()
  }

  predicate Authorizes(ns: seq<Network>, address: int)
    requires AllCanonical(ns)
  {
    exists i | 0 <= i < |ns| :: ns[i].Holds(address)
  }

  predicate NetworksOverlap(left: seq<Network>, right: seq<Network>)
    requires AllCanonical(left) && AllCanonical(right)
  {
    exists i, j | 0 <= i < |left| && 0 <= j < |right| :: left[i].Overlaps(right[j])
  }

  /** Two authorities are reported disjoint exactly when no address has both. */
  lemma DisjointAuthorities(left: seq<Network>, right: seq<Network>)
    requires AllCanonical(left) && AllCanonical(right)
    ensures !NetworksOverlap(left, right) <==> forall x: nat :: !(Authorizes(left, x) && Authorizes(right, x))
  {
    if NetworksOverlap(left, right) {
      var i, j :| 0 <= i < |left| && 0 <= j < |right| && left[i].Overlaps(right[j]);
      OverlapIsShared(left[i], right[j]);
      var x: nat :| left[i].Holds(x) && right[j].Holds(x);
      assert Authorizes(left, x) && Authorizes(right, x);
    } else {
      forall x: nat ensures !(Authorizes(left, x) && Authorizes(right, x)) {
        if Authorizes(left, x) && Authorizes(right, x) {
          var i :| 0 <= i < |left| && left[i].Holds(x);
          var j :| 0 <= j < |right| && right[j].Holds(x);
          OverlapIsShared(left[i], right[j]);
          assert false;
        }
      }
    }
  }

  // ---------------------------------------------------------------- private space

  const TEN := Network(10 * 0x100_0000, 8)
  const ONE_SEVEN_TWO := Network(172 * 0x100_0000 + 16 * 0x1_0000, 12)
  const ONE_NINE_TWO := Network(192 * 0x100_0000 + 168 * 0x1_0000, 16)

  predicate Private(address: int) {
    TEN.Holds(address) || ONE_SEVEN_TWO.Holds(address) || ONE_NINE_TWO.Holds(address)
  }

  lemma PrivateSizes()
    ensures Pow2(24) == 0x100_0000 && Pow2(20) == 0x10_0000 && Pow2(16) == 0x1_0000
    ensures TEN.Canonical() && ONE_SEVEN_TWO.Canonical() && ONE_NINE_TWO.Canonical()
  {
    assert Pow2(8) == 256;
    assert Pow2(16) == 0x1_0000;
    assert Pow2(20) == 0x10_0000;
    assert Pow2(24) == 0x100_0000;
  }

  /** Testing only the two ends of a canonical block decides whether all of it is private, at any
      prefix length. */
  lemma EndsDecidePrivacy(n: Network)
    requires n.Canonical()
    ensures Private(n.first) && Private(n.Last()) <==> forall x | n.Holds(x) :: Private(x)
  {
    PrivateSizes();
    assert n.Holds(n.first) && n.Holds(n.Last());
    if Private(n.first) && Private(n.Last()) {
      if n.prefix < 8 {
        WideBlocksAreNotPrivate(n);
      } else {
        WithinOne(n, TEN);
        WithinOne(n, ONE_SEVEN_TWO);
        WithinOne(n, ONE_NINE_TWO);
        hide Network.Canonical, Pow2, Network.Holds;
        WithinPrivate(n);
      }
    }
  }

  lemma WithinPrivate(n: Network)
    requires n.Canonical() && n.prefix >= 8 && Private(n.first) && Private(n.Last())
    requires n.prefix < 12 ==> ONE_SEVEN_TWO.Holds(n.first) ==> n.first == ONE_SEVEN_TWO.first
    requires n.prefix < 16 ==> ONE_NINE_TWO.Holds(n.first) ==> n.first == ONE_NINE_TWO.first
    requires TEN.Holds(n.first) ==> forall x | n.Holds(x) :: TEN.Holds(x)
    requires n.prefix >= 12 && ONE_SEVEN_TWO.Holds(n.first) ==> forall x | n.Holds(x) :: ONE_SEVEN_TWO.Holds(x)
    requires n.prefix >= 16 && ONE_NINE_TWO.Holds(n.first) ==> forall x | n.Holds(x) :: ONE_NINE_TWO.Holds(x)
    ensures forall x | n.Holds(x) :: Private(x)
  {
    PrivateSizes();
    if n.prefix < 12 && ONE_SEVEN_TWO.Holds(n.first) {
      Pow2Monotone(21, 32 - n.prefix);
      assert Pow2(21) == 0x20_0000;
      AlignedDown(n.first, n.Size(), 0x20_0000);
    } else if n.prefix < 16 && ONE_NINE_TWO.Holds(n.first) {
      Pow2Monotone(17, 32 - n.prefix);
      assert Pow2(17) == 0x2_0000;
    }
  }

  /** A block whose first address lies in a private block is inside it, or contains it. */
  lemma WithinOne(n: Network, p: Network)
    requires n.Canonical() && p.Canonical()
    ensures p.Holds(n.first) && n.prefix >= p.prefix ==> forall x | n.Holds(x) :: p.Holds(x)
    ensures p.Holds(n.first) && n.prefix < p.prefix ==> n.first == p.first
  {
    if p.Holds(n.first) {
      assert n.Holds(n.first);
      if n.prefix >= p.prefix {
        NestedOrDisjoint(p, n);
      } else {
        Pow2Monotone(32 - p.prefix, 32 - n.prefix);
        AlignedDown(n.first, n.Size(), p.Size());
        if n.first > p.first { AlignedGap(p.first, n.first, p.Size()); }
      }
    }
  }

  lemma WideBlocksAreNotPrivate(n: Network)
    requires n.Canonical() && n.prefix < 8
    ensures !(Private(n.first) && Private(n.Last()))
  {
    PrivateSizes();
    WithinOne(n, TEN);
    WithinOne(n, ONE_SEVEN_TWO);
    WithinOne(n, ONE_NINE_TWO);
    Pow2Monotone(25, 32 - n.prefix);
    assert Pow2(25) == 0x200_0000;
    AlignedDown(n.first, n.Size(), 0x200_0000);
  }

  /** Private are 10.*, 172.16.* to 172.31.* and 192.168.*. */
  lemma PrivateExactly(address: nat)
    ensures Private(address) <==> address / 0x100_0000 == 10 || address / 0x10_0000 == 172 * 16 + 1 || address / 0x1_0000 == 192 * 256 + 168
  {
    PrivateSizes();
  }

  // ---------------------------------------------------------------- authority lists

  /** One element of a list: a canonical text is its network, anything else is refused. */
  datatype Item = NotCanonical | Block(network: Network)

  const LOOPBACK := Network(127 * 0x100_0000, 8)
  const LINK_LOCAL := Network(169 * 0x100_0000 + 254 * 0x1_0000, 16)
  const MULTICAST := Network(224 * 0x100_0000, 4)

  /** The library's classification of a network: both of its ends are in the range. */
  predicate EndsIn(n: Network, range: Network)
    requires n.prefix <= 32 && range.prefix <= 32
  {
    range.Holds(n.first) && range.Holds(n.Last())
  }

  predicate Special(n: Network)
    requires n.prefix <= 32
  {
    EndsIn(n, LOOPBACK) || EndsIn(n, LINK_LOCAL) || EndsIn(n, MULTICAST)
  }

  /** The rules of one list; `global` is the registry of globally routable addresses. */
  datatype Rules = Rules(private: Option<bool>, minimumPrefix: nat, maximumItems: nat, allowEmpty: bool, global: nat -> bool)

  predicate ItemAllowed(rules: Rules, item: Item) {
    && item.Block? && item.network.Canonical()
    && var n := item.network;
       && !Special(n) && n.first != 0
       && n.prefix >= rules.minimumPrefix
       && var private := Private(n.first) && Private(n.Last());
          && (rules.private == Some(true) ==> private)
          && (rules.private == Some(false) ==> !private && rules.global(n.first))
  }

  /** Every address of the block is 127.*, or every one 169.254.*, or every one from 224.* to 239.*. */
  ghost predicate AllSpecial(n: Network)
    requires n.prefix <= 32
  {
    || (forall x: nat | n.Holds(x) :: x / 0x100_0000 == 127)
    || (forall x: nat | n.Holds(x) :: x / 0x1_0000 == 169 * 256 + 254)
    || (forall x: nat | n.Holds(x) :: 224 <= x / 0x100_0000 <= 239)
  }

  lemma EndsDecideRange(n: Network, range: Network)
    requires n.prefix <= 32 && range.prefix <= 32
    ensures EndsIn(n, range) <==> forall x: nat | n.Holds(x) :: range.Holds(x)
  {
    assert n.Holds(n.first) && n.Holds(n.Last());
  }

  lemma SpecialRanges(x: nat)
    ensures LOOPBACK.Holds(x) <==> x / 0x100_0000 == 127
    ensures LINK_LOCAL.Holds(x) <==> x / 0x1_0000 == 169 * 256 + 254
    ensures MULTICAST.Holds(x) <==> 224 <= x / 0x100_0000 <= 239
  {
    PrivateSizes();
    assert Pow2(28) == 0x1000_0000 by { assert Pow2(25) == 0x200_0000; }
  }

  lemma SpecialExactly(n: Network)
    requires n.prefix <= 32
    ensures Special(n) <==> AllSpecial(n)
  {
    EndsDecideRange(n, LOOPBACK);
    EndsDecideRange(n, LINK_LOCAL);
    EndsDecideRange(n, MULTICAST);
    forall x: nat
      ensures LOOPBACK.Holds(x) <==> x / 0x100_0000 == 127
      ensures LINK_LOCAL.Holds(x) <==> x / 0x1_0000 == 169 * 256 + 254
      ensures MULTICAST.Holds(x) <==> 224 <= x / 0x100_0000 <= 239
    {
      SpecialRanges(x);
    }
    hide Network.Holds, EndsIn;
  }

  /** The compiler's rule for one element, in terms of all the addresses of its block. */
  lemma ItemAllowedExactly(rules: Rules, item: Item)
    ensures ItemAllowed(rules, item) <==>
      && item.Block? && item.network.Canonical() && rules.minimumPrefix <= item.network.prefix <= 32
      && item.network.first != 0 && !AllSpecial(item.network)
      && (rules.private == Some(true) ==> forall x | item.network.Holds(x) :: Private(x))
      && (rules.private == Some(false) ==>
            rules.global(item.network.first) && exists x :: item.network.Holds(x) && !Private(x))
  {
    if item.Block? && item.network.Canonical() {
      EndsDecidePrivacy(item.network);
      SpecialExactly(item.network);
    }
    hide Private, Special, AllSpecial, Network.Holds;
  }

  predicate Distinct<T(==)>(xs: seq<T>) {
    forall i, j | 0 <= i < j < |xs| :: xs[i] != xs[j]
  }

  predicate Accepts(rules: Rules, items: seq<Item>) {
    && (rules.allowEmpty || items != [])
    && |items| <= rules.maximumItems
    && (forall i | 0 <= i < |items| :: ItemAllowed(rules, items[i]))
    && Distinct(items)
  }

  /** The sort key: first address, then prefix length. */
  predicate Before(a: Network, b: Network) {
    a.first < b.first || (a.first == b.first && a.prefix < b.prefix)
  }

  predicate Sorted(ns: seq<Network>) {
    forall i, j | 0 <= i < j < |ns| :: Before(ns[i], ns[j])
  }

  lemma HeadIsBefore(ns: seq<Network>)
    requires Sorted(ns) && ns != []
    ensures forall v | v in ns[1..] :: Before(ns[0], v)
  {
    forall v | v in ns[1..] ensures Before(ns[0], v) {
      var k :| 0 <= k < |ns| - 1 && ns[1..][k] == v;
      assert ns[k + 1] == v;
    }
  }

  function Insert(n: Network, ns: seq<Network>): (r: seq<Network>)
    requires Sorted(ns) && n !in ns
    ensures Sorted(r) && |r| == |ns| + 1 && forall v :: v in r <==> v == n || v in ns
  {
    if ns == [] then [n]
    else if Before(n, ns[0]) then [n] + ns
    else
      assert ns == [ns[0]] + ns[1..];
      var rest := Insert(n, ns[1..]);
      assert ns[0] in ns && Before(ns[0], n);
      HeadIsBefore(ns);
      assert forall v | v in rest :: Before(ns[0], v);
      [ns[0]] + rest
  }

  /** The library sort. */
  function Sort(ns: seq<Network>): (r: seq<Network>)
    requires Distinct(ns)
    ensures Sorted(r) && |r| == |ns| && forall v :: v in r <==> v in ns
  {
    if ns == [] then []
    else
      assert ns == [ns[0]] + ns[1..];
      Insert(ns[0], Sort(ns[1..]))
  }

  function NetworksOf(items: seq<Item>): seq<Network>
    requires forall i | 0 <= i < |items| :: items[i].Block?
  {
    seq(|items|, i requires 0 <= i < |items| => items[i].network)
  }

  lemma NetworksDistinct(items: seq<Item>)
    requires Distinct(items) && forall i | 0 <= i < |items| :: items[i].Block?
    ensures Distinct(NetworksOf(items))
  {
    forall i, j | 0 <= i < j < |items| ensures items[i].network != items[j].network {
      assert items[i] != items[j];
    }
  }

  /** The list an accepted input stands for. */
  function Canonicalized(rules: Rules, items: seq<Item>): Option<seq<Network>> {
    if Accepts(rules, items) then
      NetworksDistinct(items);
      Some(Sort(NetworksOf(items)))
    else None
  }

  /** The check as written: one pass with the items seen so far, then the sort. */
  method CidrTuple(rules: Rules, items: seq<Item>) returns (r: Option<seq<Network>>)
    ensures r == Canonicalized(rules, items)
  {
    if items == [] && !rules.allowEmpty { return None; }
    if |items| > rules.maximumItems { return None; }
    var result: seq<Network> := [];
    var seen: set<Item> := {};
    for i := 0 to |items|
      invariant forall k | 0 <= k < i :: ItemAllowed(rules, items[k])
      invariant Distinct(items[..i])
      invariant seen == set k | 0 <= k < i :: items[k]
      invariant result == NetworksOf(items[..i])
    {
      if !ItemAllowed(rules, items[i]) { return None; }
      if items[i] in seen { return None; }
      seen := seen + {items[i]};
      result := result + [items[i].network];
      assert items[..i + 1] == items[..i] + [items[i]];
    }
    assert items[..|items|] == items;
    NetworksDistinct(items);
    r := Some(Sort(result));
  }

  lemma {:induction false} SortedUnique(a: seq<Network>, b: seq<Network>)
    requires Sorted(a) && Sorted(b) && forall v :: v in a <==> v in b
    ensures a == b
  {
    assert b != [] ==> b[0] in b;
    if a != [] {
      assert a[0] in a;
      assert b != [];
      assert b[0] in b;
      assert a[0] == b[0];
      forall v ensures v in a[1..] <==> v in b[1..] {
        assert a == [a[0]] + a[1..] && b == [b[0]] + b[1..];
        assert a[0] !in a[1..] && b[0] !in b[1..];
        assert v in a <==> v == a[0] || v in a[1..];
        assert v in b <==> v == b[0] || v in b[1..];
      }
      SortedUnique(a[1..], b[1..]);
    }
  }

  lemma DistinctByMultiset<T>(x: seq<T>, y: seq<T>)
    requires multiset(x) == multiset(y) && Distinct(x)
    ensures Distinct(y)
  {
    forall i, j | 0 <= i < j < |y| ensures y[i] != y[j] {
      if y[i] == y[j] {
        assert y == y[..i] + [y[i]] + y[i + 1..j] + [y[j]] + y[j + 1..];
        assert multiset(y)[y[i]] >= 2;
        DistinctCounts(x, y[i]);
        assert false;
      }
    }
  }

  lemma {:induction false} DistinctCounts<T>(x: seq<T>, v: T)
    requires Distinct(x)
    ensures multiset(x)[v] <= 1
  {
    if x != [] {
      assert x == [x[0]] + x[1..];
      DistinctCounts(x[1..], v);
      if x[0] == v { assert v !in x[1..]; }
    }
  }

  /** Acceptance and the resulting list do not depend on the order of the input. */
  lemma OrderInsensitive(rules: Rules, x: seq<Item>, y: seq<Item>)
    requires multiset(x) == multiset(y)
    ensures Canonicalized(rules, x) == Canonicalized(rules, y)
  {
    if Accepts(rules, x) { AcceptsPermuted(rules, x, y); }
    if Accepts(rules, y) { AcceptsPermuted(rules, y, x); }
    hide ItemAllowed;
    if Accepts(rules, x) {
      NetworksDistinct(x);
      NetworksDistinct(y);
      forall v ensures v in NetworksOf(x) <==> v in NetworksOf(y) {
        MembersByMultiset(x, y, v);
        MembersByMultiset(y, x, v);
      }
      SortedUnique(Sort(NetworksOf(x)), Sort(NetworksOf(y)));
    }
  }

  lemma MembersByMultiset(x: seq<Item>, y: seq<Item>, v: Network)
    requires multiset(x) == multiset(y)
    requires forall i | 0 <= i < |x| :: x[i].Block?
    requires forall i | 0 <= i < |y| :: y[i].Block?
    ensures v in NetworksOf(x) ==> v in NetworksOf(y)
  {
    if v in NetworksOf(x) {
      var i :| 0 <= i < |x| && NetworksOf(x)[i] == v;
      assert x[i] in multiset(y);
      var j :| 0 <= j < |y| && y[j] == x[i];
      assert NetworksOf(y)[j] == v;
    }
  }

  lemma AcceptsPermuted(rules: Rules, x: seq<Item>, y: seq<Item>)
    requires multiset(x) == multiset(y) && Accepts(rules, x)
    ensures Accepts(rules, y)
  {
    assert |x| == |multiset(x)| == |multiset(y)| == |y|;
    DistinctByMultiset(x, y);
    forall i | 0 <= i < |y| ensures ItemAllowed(rules, y[i]) {
      assert y[i] in multiset(x);
    }
  }

  // ---------------------------------------------------------------- the agent's lists

  predicate PairwiseDisjoint(ns: seq<Network>)
    requires AllCanonical(ns)
  {
    forall i, j | 0 <= i < j < |ns| :: !ns[j].Overlaps(ns[i])
  }

  /** The agent's double loop over all earlier networks. */
  method NoneOverlaps(ns: seq<Network>) returns (ok: bool)
    requires AllCanonical(ns)
    ensures ok == PairwiseDisjoint(ns)
  {
    for index := 0 to |ns|
      invariant PairwiseDisjoint(ns[..index])
    {
      for earlier := 0 to index
        invariant forall i | 0 <= i < earlier :: !ns[index].Overlaps(ns[i])
      {
        if ns[index].Overlaps(ns[earlier]) { return false; }
      }
      assert ns[..index + 1] == ns[..index] + [ns[index]];
    }
    assert ns[..|ns|] == ns;
    return true;
  }

  /** The order the agent demands of its input: that of a sorted copy, repetitions included. */
  predicate NonDecreasing(ns: seq<Network>) {
    forall i, j | 0 <= i < j < |ns| :: Before(ns[i], ns[j]) || ns[i] == ns[j]
  }

  const MAX_AUTHORIZED_SOURCE_CIDRS: nat := 64

  predicate AgentAllowed(item: Item, minimumPrefix: nat, requireGlobal: bool, global: Network -> bool) {
    && item.Block? && item.network.Canonical()
    && item.network.prefix >= minimumPrefix
    && (requireGlobal ==> global(item.network))
    && !Special(item.network) && item.network != Network(0, 32)
  }

  /** The agent's rule for one element, in terms of all the addresses of its block. */
  lemma AgentAllowedExactly(item: Item, minimumPrefix: nat, requireGlobal: bool, global: Network -> bool)
    ensures AgentAllowed(item, minimumPrefix, requireGlobal, global) <==>
      && item.Block? && item.network.Canonical() && minimumPrefix <= item.network.prefix <= 32
      && (requireGlobal ==> global(item.network)) && !AllSpecial(item.network)
      && (item.network.first != 0 || item.network.prefix != 32)
  {
    if item.Block? && item.network.prefix <= 32 { SpecialExactly(item.network); }
    hide Special, AllSpecial;
  }

  /** The agent's whole check of one authorized list. */
  method RequireAuthorized(values: seq<Item>, minimumPrefix: nat, requireGlobal: bool, global: Network -> bool) returns (ok: bool)
    ensures ok <==>
              && 1 <= |values| <= MAX_AUTHORIZED_SOURCE_CIDRS
              && (forall i | 0 <= i < |values| :: AgentAllowed(values[i], minimumPrefix, requireGlobal, global))
              && NonDecreasing(NetworksOf(values)) && PairwiseDisjoint(NetworksOf(values))
  {
    if values == [] || |values| > MAX_AUTHORIZED_SOURCE_CIDRS { return false; }
    var networks: seq<Network> := [];
    for i := 0 to |values|
      invariant forall k | 0 <= k < i :: AgentAllowed(values[k], minimumPrefix, requireGlobal, global)
      invariant networks == NetworksOf(values[..i])
    {
      if !AgentAllowed(values[i], minimumPrefix, requireGlobal, global) { return false; }
      networks := networks + [values[i].network];
      assert values[..i + 1] == values[..i] + [values[i]];
    }
    assert values[..|values|] == values;
    if !NonDecreasing(networks) { return false; }
    ok := NoneOverlaps(networks);
  }

  /** In an ordered list comparing neighbours decides whether any two networks overlap, and then
      each network ends before the next begins. */
  lemma NeighboursSuffice(ns: seq<Network>)
    requires AllCanonical(ns) && NonDecreasing(ns)
    ensures PairwiseDisjoint(ns) <==> forall i | 0 <= i < |ns| - 1 :: !ns[i + 1].Overlaps(ns[i])
    ensures PairwiseDisjoint(ns) <==> forall i | 0 <= i < |ns| - 1 :: ns[i].Last() < ns[i + 1].first
  {
    forall i | 0 <= i < |ns| - 1 ensures !ns[i + 1].Overlaps(ns[i]) <==> ns[i].Last() < ns[i + 1].first {
      NeighbourGap(ns, i);
    }
    if forall i | 0 <= i < |ns| - 1 :: ns[i].Last() < ns[i + 1].first {
      forall i, j | 0 <= i < j < |ns| ensures !ns[j].Overlaps(ns[i]) {
        Ascending(ns, i, j);
        OverlapIsShared(ns[j], ns[i]);
      }
    }
  }

  lemma NeighbourGap(ns: seq<Network>, i: nat)
    requires AllCanonical(ns) && NonDecreasing(ns) && i < |ns| - 1
    ensures !ns[i + 1].Overlaps(ns[i]) <==> ns[i].Last() < ns[i + 1].first
  {
    assert Before(ns[i], ns[i + 1]) || ns[i] == ns[i + 1];
    OverlapIsShared(ns[i + 1], ns[i]);
    if ns[i + 1].first <= ns[i].Last() { assert ns[i + 1].Holds(ns[i + 1].first) && ns[i].Holds(ns[i + 1].first); }
  }

  lemma {:induction false} Ascending(ns: seq<Network>, i: nat, j: nat)
    requires AllCanonical(ns) && i < j < |ns|
    requires forall i | 0 <= i < |ns| - 1 :: ns[i].Last() < ns[i + 1].first
    ensures ns[i].Last() < ns[j].first
    decreases j
  {
    if i < j - 1 {
      Ascending(ns, i, j - 1);
      assert ns[j - 1].Last() < ns[j - 1 + 1].first;
    }
  }
}
