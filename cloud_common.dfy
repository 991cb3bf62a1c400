/**
 * Helpers shared by the cloud adapters that shape a snapshot: sorted
 * key/value rendering, map unions, IP/CIDR checks, the per-region basic VPC
 * and network, pruning of regions and AZs that own no resources, and the
 * "ff" rule for AZ lcuuids.
 *
 * uuid generation (GenerateUUID, GetUUID) is a function given by the caller;
 * CIDR and prefix parsing (net.ParseCIDR, netaddr.ParseIPPrefix) is given as
 * its parsed outcome.
 */
module CloudCommon {
  import opened Wrappers
  import Text

  // ---------------------------------------------------------------- string order

  /** Go's string order (sort.Strings): lexicographic by character code. */
  predicate StrLess(a: string, b: string)
  {
    if a == [] then b != []
    else if b == [] then false
    else a[0] < b[0] || (a[0] == b[0] && StrLess(a[1..], b[1..]))
  }

  lemma {:induction false} StrLessIrreflexive(a: string)
    ensures !StrLess(a, a)
  {
    if a != [] {
      StrLessIrreflexive(a[1..]);
    }
  }

  lemma {:induction false} StrLessTransitive(a: string, b: string, c: string)
    requires StrLess(a, b) && StrLess(b, c)
    ensures StrLess(a, c)
  {
    if a != [] && b != [] && c != [] && a[0] == b[0] && b[0] == c[0] {
      StrLessTransitive(a[1..], b[1..], c[1..]);
    }
  }

  lemma {:induction false} StrLessTotal(a: string, b: string)
    requires a != b
    ensures StrLess(a, b) || StrLess(b, a)
  {
    if a != [] && b != [] && a[0] == b[0] {
      assert a == [a[0]] + a[1..] && b == [b[0]] + b[1..];
      StrLessTotal(a[1..], b[1..]);
    }
  }

  predicate StrictlySorted(keys: seq<string>)
  {
    forall i, j :: 0 <= i < j < |keys| ==> StrLess(keys[i], keys[j])
  }

  /** Two strictly sorted sequences with the same elements are equal: the sorted key order is unique. */
  lemma {:induction false} SortedUnique(a: seq<string>, b: seq<string>)
    requires StrictlySorted(a) && StrictlySorted(b)
    requires forall x :: x in a <==> x in b
    ensures a == b
  {
    assert b != [] ==> b[0] in a;
    assert a != [] ==> a[0] in b;
    if a != [] && b != [] {
      if a[0] != b[0] {
        assert a[0] in a && b[0] in b;
        var k :| 0 <= k < |b| && b[k] == a[0];
        var j :| 0 <= j < |a| && a[j] == b[0];
        assert StrLess(b[0], a[0]) && StrLess(a[0], b[0]);
        StrLessTransitive(a[0], b[0], a[0]);
        StrLessIrreflexive(a[0]);
        assert false;
      }
      assert a == [a[0]] + a[1..] && b == [b[0]] + b[1..];
      forall x ensures x in a[1..] <==> x in b[1..] {
        StrLessIrreflexive(x);
        if x in a[1..] {
          var i :| 0 <= i < |a[1..]| && a[1..][i] == x;
          assert StrLess(a[0], a[i + 1]);
          assert x in b;
          var k :| 0 <= k < |b| && b[k] == x;
          assert k != 0 && b[1..][k - 1] == x;
        }
        if x in b[1..] {
          var i :| 0 <= i < |b[1..]| && b[1..][i] == x;
          assert StrLess(b[0], b[i + 1]);
          assert x in a;
          var k :| 0 <= k < |a| && a[k] == x;
          assert k != 0 && a[1..][k - 1] == x;
        }
      }
      SortedUnique(a[1..], b[1..]);
    }
  }

  /** The least key of a non-empty set. */
  method MinKey(s: set<string>) returns (m: string)
    requires s != {}
    ensures m in s && forall x :: x in s && x != m ==> StrLess(m, x)
  {
    m :| m in s;
    var rest := s - {m};
    while rest != {}
      invariant rest <= s && m in s && m !in rest
      invariant forall x :: x in s && x !in rest && x != m ==> StrLess(m, x)
      decreases rest
    {
      var x :| x in rest;
      if StrLess(x, m) {
        forall y | y in s && y !in rest && y != m ensures StrLess(x, y) {
          StrLessTransitive(x, m, y);
        }
        m := x;
      } else {
        StrLessTotal(x, m);
      }
      rest := rest - {x};
    }
  }

  /** The keys of `m` in ascending order (the keys slice after sort.Strings). */
  method SortedKeys<V>(m: map<string, V>) returns (keys: seq<string>)
    ensures StrictlySorted(keys)
    ensures forall k :: k in keys <==> k in m
  {
    keys := [];
    var rest := m.Keys;
    while rest != {}
      invariant rest <= m.Keys
      invariant StrictlySorted(keys)
      invariant forall k :: k in keys <==> k in m && k !in rest
      invariant forall k, r :: k in keys && r in rest ==> StrLess(k, r)
      decreases rest
    {
      var k := MinKey(rest);
      keys := keys + [k];
      rest := rest - {k};
    }
  }

  /** The rendered items for the keys in the given order. */
  function RenderKVs(m: map<string, string>, keys: seq<string>, sep: string): seq<string>
    requires forall k :: k in keys ==> k in m
  {
    seq(|keys|, i requires 0 <= i < |keys| => keys[i] + sep + m[keys[i]])
  }

  /**
   * StringInterfaceMapKVs: one "key" + sep + "value" per key of `m`, in
   * ascending key order (every value is a string).
   */
  method StringInterfaceMapKVs(m: map<string, string>, sep: string) returns (items: seq<string>, keys: seq<string>)
    ensures StrictlySorted(keys) && (forall k :: k in keys <==> k in m)
    ensures |items| == |m|
    ensures items == RenderKVs(m, keys, sep)
  {
    keys := SortedKeys(m);
    items := [];
    var i := 0;
    while i < |keys|
      invariant 0 <= i <= |keys|
      invariant items == RenderKVs(m, keys[..i], sep)
    {
      items := items + [keys[i] + sep + m[keys[i]]];
      i := i + 1;
    }
    assert keys[..|keys|] == keys;
    DistinctKeysCount(m, keys);
  }

  /** A strictly sorted listing of a map's keys has one entry per key. */
  lemma DistinctKeysCount<V>(m: map<string, V>, keys: seq<string>)
    requires StrictlySorted(keys) && (forall k :: k in keys <==> k in m)
    ensures |keys| == |m|
  {
    var ks := set k | k in keys;
    assert ks == m.Keys;
    DistinctSeqCard(keys);
  }

  lemma {:induction false} DistinctSeqCard(keys: seq<string>)
    requires StrictlySorted(keys)
    ensures |set k | k in keys| == |keys|
  {
    if keys != [] {
      var tail := keys[1..];
      DistinctSeqCard(tail);
      assert (set k | k in keys) == {keys[0]} + (set k | k in tail);
      if keys[0] in tail {
        var j :| 0 <= j < |tail| && tail[j] == keys[0];
        assert keys[j + 1] == keys[0];
        StrLessIrreflexive(keys[0]);
      }
    }
  }

  // ---------------------------------------------------------------- map unions

  /**
   * A Go map value: a reference to entries, so a write through one holder
   * is seen by every other holder of the same map.
   */
  class GoMap<V> {
    var entries: map<string, V>

    constructor (entries: map<string, V>)
      ensures this.entries == entries
    {
      this.entries := entries;
    }
  }

  /**
   * UnionMapStringInt and UnionMapStringString: every entry of `n` is
   * written into `m` itself, and `m` is returned.
   */
  method UnionMap<V>(m: GoMap<V>, n: map<string, V>) returns (r: GoMap<V>)
    modifies m
    ensures r == m
    ensures m.entries == old(m.entries) + n
  {
    var entries := m.entries;
    var rest := n.Keys;
    while rest != {}
      invariant rest <= n.Keys
      invariant entries.Keys == old(m.entries).Keys + (n.Keys - rest)
      invariant forall k :: k in n && k !in rest ==> entries[k] == n[k]
      invariant forall k :: k in old(m.entries) && k !in n ==> entries[k] == old(m.entries)[k]
      invariant forall k :: k in old(m.entries) && k in rest ==> entries[k] == old(m.entries)[k]
      decreases rest
    {
      var k :| k in rest;
      entries := entries[k := n[k]];
      rest := rest - {k};
    }
    m.entries := entries;
    r := m;
  }

  /**
   * UnionMapStringSet: written into `m` itself, which gains the keys of
   * `n`; a key both maps have holds the union of the two sets.
   */
  method UnionMapSet(m: GoMap<set<string>>, n: map<string, set<string>>) returns (r: GoMap<set<string>>)
    modifies m
    ensures r == m
    ensures m.entries.Keys == old(m.entries.Keys) + n.Keys
    ensures forall k :: k in m.entries ==>
      m.entries[k] == (if k in old(m.entries) then old(m.entries)[k] else {}) + (if k in n then n[k] else {})
  {
    var entries := m.entries;
    var rest := n.Keys;
    while rest != {}
      invariant rest <= n.Keys
      invariant entries.Keys == old(m.entries).Keys + (n.Keys - rest)
      invariant forall k :: k in entries && k !in rest ==>
        entries[k] == (if k in old(m.entries) then old(m.entries)[k] else {}) + (if k in n then n[k] else {})
      invariant forall k :: k in old(m.entries) && k in rest ==> entries[k] == old(m.entries)[k]
      decreases rest
    {
      var k :| k in rest;
      if k !in entries {
        entries := entries[k := n[k]];
      } else {
        entries := entries[k := entries[k] + n[k]];
      }
      rest := rest - {k};
    }
    m.entries := entries;
    r := m;
  }

  // ---------------------------------------------------------------- IPs

  const IPV4_MAX_MASK: int := 32
  const IPV6_MAX_MASK: int := 128

  /**
   * IsIPInCIDR: with a "/" the CIDR's parse outcome decides (a parse error
   * gives false); without one it is plain string equality.
   */
  function IsIPInCIDR(ip: string, cidr: string, parsedContains: Option<bool>): (r: bool)
    ensures !Text.Contains(cidr, "/") ==> (r <==> ip == cidr)
    ensures Text.Contains(cidr, "/") ==> (r <==> parsedContains == Some(true))
  {
    if Text.Contains(cidr, "/") then
      if parsedContains.None? then false else parsedContains.value
    else ip == cidr
  }

  /**
   * GenerateIPMask: the prefix length of a parsable prefix, otherwise the
   * full mask of the family (IPv6 when the string holds a ':').
   */
  function GenerateIPMask(ip: string, parsedPrefixLen: Option<int>): (r: int)
    ensures parsedPrefixLen.Some? ==> r == parsedPrefixLen.value
    ensures parsedPrefixLen.None? ==> r == (if ':' in ip then IPV6_MAX_MASK else IPV4_MAX_MASK)
  {
    if parsedPrefixLen.Some? then parsedPrefixLen.value
    else if Text.Contains(ip, ":") then
      ContainsColon(ip);
      IPV6_MAX_MASK
    else
      ContainsColon(ip);
      IPV4_MAX_MASK
  }

  lemma {:induction false} ContainsColon(s: string)
    ensures Text.Contains(s, ":") <==> ':' in s
  {
    if s != [] {
      ContainsColon(s[1..]);
      assert s == [s[0]] + s[1..];
    }
  }

  // ---------------------------------------------------------------- basic VPCs and networks

  /** common.NETWORK_TYPE_LAN */
  const NETWORK_TYPE_LAN: int := 4

  datatype Region = Region(lcuuid: string, name: string)

  datatype AZ = AZ(lcuuid: string, name: string, regionLcuuid: string)

  datatype VPC = VPC(lcuuid: string, name: string, regionLcuuid: string)

  datatype Network = Network(lcuuid: string, name: string, segmentationID: int, netType: int,
                             vpcLcuuid: string, regionLcuuid: string)

  /** The basic VPC's name: the domain name, then the formatted "<domain>_基础VPC_<region>". */
  function BasicVPCName(domainName: string, regionName: string): string
  {
    domainName + (domainName + "_基础VPC_" + regionName)
  }

  /**
   * GetBasicVPCAndNetworks: one VPC and one network per region, in region
   * order; the network is a LAN with segmentation id 1 inside its VPC.
   */
  method GetBasicVPCAndNetworks(regions: seq<Region>, domainName: string, uuidGenerate: string,
                                generateUUID: string -> string)
    returns (vpcs: seq<VPC>, networks: seq<Network>)
    ensures |vpcs| == |regions| && |networks| == |regions|
    ensures forall i :: 0 <= i < |regions| ==>
      vpcs[i] == VPC(generateUUID(uuidGenerate + regions[i].lcuuid), BasicVPCName(domainName, regions[i].name), regions[i].lcuuid)
    ensures forall i :: 0 <= i < |regions| ==>
      networks[i].lcuuid == generateUUID(vpcs[i].lcuuid) && networks[i].name == vpcs[i].name + "子网" &&
      networks[i].vpcLcuuid == vpcs[i].lcuuid && networks[i].regionLcuuid == regions[i].lcuuid &&
      networks[i].segmentationID == 1 && networks[i].netType == NETWORK_TYPE_LAN
  {
    vpcs, networks := [], [];
    var i := 0;
    while i < |regions|
      invariant 0 <= i <= |regions|
      invariant |vpcs| == i && |networks| == i
      invariant forall j :: 0 <= j < i ==>
        vpcs[j] == VPC(generateUUID(uuidGenerate + regions[j].lcuuid), BasicVPCName(domainName, regions[j].name), regions[j].lcuuid)
      invariant forall j :: 0 <= j < i ==>
        networks[j].lcuuid == generateUUID(vpcs[j].lcuuid) && networks[j].name == vpcs[j].name + "子网" &&
        networks[j].vpcLcuuid == vpcs[j].lcuuid && networks[j].regionLcuuid == regions[j].lcuuid &&
        networks[j].segmentationID == 1 && networks[j].netType == NETWORK_TYPE_LAN
    {
      var region := regions[i];
      var vpcLcuuid := generateUUID(uuidGenerate + region.lcuuid);
      var vpcName := domainName + (domainName + "_基础VPC_" + region.name);
      vpcs := vpcs + [VPC(vpcLcuuid, vpcName, region.lcuuid)];
      networks := networks + [Network(generateUUID(vpcLcuuid), vpcName + "子网", 1, NETWORK_TYPE_LAN, vpcLcuuid, region.lcuuid)];
      i := i + 1;
    }
  }

  // ---------------------------------------------------------------- pruning

  /** The region or AZ owns resources: its count is present and non-zero. */
  predicate HasResources(counts: map<string, int>, lcuuid: string)
  {
    lcuuid in counts && counts[lcuuid] != 0
  }

  function NonEmptyRegions(regions: seq<Region>, counts: map<string, int>): seq<Region>
  {
    if regions == [] then []
    else
      var last := regions[|regions| - 1];
      NonEmptyRegions(regions[..|regions| - 1], counts) + (if HasResources(counts, last.lcuuid) then [last] else [])
  }

  function NonEmptyAZs(azs: seq<AZ>, counts: map<string, int>): seq<AZ>
  {
    if azs == [] then []
    else
      var last := azs[|azs| - 1];
      NonEmptyAZs(azs[..|azs| - 1], counts) + (if HasResources(counts, last.lcuuid) then [last] else [])
  }

  /** EliminateEmptyRegions: the regions that own resources, in order. */
  method EliminateEmptyRegions(regions: seq<Region>, counts: map<string, int>) returns (r: seq<Region>)
    ensures r == NonEmptyRegions(regions, counts)
  {
    r := [];
    var i := 0;
    while i < |regions|
      invariant 0 <= i <= |regions|
      invariant r == NonEmptyRegions(regions[..i], counts)
    {
      assert regions[..i + 1][..i] == regions[..i];
      if regions[i].lcuuid in counts && counts[regions[i].lcuuid] != 0 {
        r := r + [regions[i]];
      }
      i := i + 1;
    }
    assert regions[..|regions|] == regions;
  }

  /** EliminateEmptyAZs: the AZs that own resources, in order. */
  method EliminateEmptyAZs(azs: seq<AZ>, counts: map<string, int>) returns (r: seq<AZ>)
    ensures r == NonEmptyAZs(azs, counts)
  {
    r := [];
    var i := 0;
    while i < |azs|
      invariant 0 <= i <= |azs|
      invariant r == NonEmptyAZs(azs[..i], counts)
    {
      assert azs[..i + 1][..i] == azs[..i];
      if azs[i].lcuuid in counts && counts[azs[i].lcuuid] != 0 {
        r := r + [azs[i]];
      }
      i := i + 1;
    }
    assert azs[..|azs|] == azs;
  }

  /** A region is kept iff it owns resources, and the kept list is no longer than the input. */
  lemma {:induction false} NonEmptyRegionsMembers(regions: seq<Region>, counts: map<string, int>)
    ensures forall x :: x in NonEmptyRegions(regions, counts) <==> x in regions && HasResources(counts, x.lcuuid)
    ensures |NonEmptyRegions(regions, counts)| <= |regions|
  {
    if regions != [] {
      var init := regions[..|regions| - 1];
      NonEmptyRegionsMembers(init, counts);
      assert regions == init + [regions[|regions| - 1]];
    }
  }

  /** Pruning keeps order: it distributes over concatenation. */
  lemma {:induction false} NonEmptyRegionsAppend(regions: seq<Region>, more: seq<Region>, counts: map<string, int>)
    ensures NonEmptyRegions(regions + more, counts) == NonEmptyRegions(regions, counts) + NonEmptyRegions(more, counts)
    decreases |more|
  {
    if more == [] {
      assert regions + more == regions;
    } else {
      var init := more[..|more| - 1];
      NonEmptyRegionsAppend(regions, init, counts);
      assert (regions + more)[..|regions + more| - 1] == regions + init;
      assert (regions + more)[|regions + more| - 1] == more[|more| - 1];
    }
  }

  /** An AZ is kept iff it owns resources, and the kept list is no longer than the input. */
  lemma {:induction false} NonEmptyAZsMembers(azs: seq<AZ>, counts: map<string, int>)
    ensures forall x :: x in NonEmptyAZs(azs, counts) <==> x in azs && HasResources(counts, x.lcuuid)
    ensures |NonEmptyAZs(azs, counts)| <= |azs|
  {
    if azs != [] {
      var init := azs[..|azs| - 1];
      NonEmptyAZsMembers(init, counts);
      assert azs == init + [azs[|azs| - 1]];
    }
  }

  /** Pruning keeps order: it distributes over concatenation. */
  lemma {:induction false} NonEmptyAZsAppend(azs: seq<AZ>, more: seq<AZ>, counts: map<string, int>)
    ensures NonEmptyAZs(azs + more, counts) == NonEmptyAZs(azs, counts) + NonEmptyAZs(more, counts)
    decreases |more|
  {
    if more == [] {
      assert azs + more == azs;
    } else {
      var init := more[..|more| - 1];
      NonEmptyAZsAppend(azs, init, counts);
      assert (azs + more)[..|azs + more| - 1] == azs + init;
      assert (azs + more)[|azs + more| - 1] == more[|more| - 1];
    }
  }

  // ---------------------------------------------------------------- AZ lcuuid

  /**
   * GetAZLcuuidFromUUIDGenerate: the uuid generated from `uuidGenerate` with
   * its last two characters replaced by "ff".
   */
  function GetAZLcuuidFromUUIDGenerate(uuidGenerate: string, getUUID: string -> string): (r: string)
    requires |getUUID(uuidGenerate)| >= 2
    ensures var u := getUUID(uuidGenerate);
      |r| == |u| && r[..|r| - 2] == u[..|u| - 2] && Text.HasSuffix(r, "ff")
  {
    var lcuuid := getUUID(uuidGenerate);
    lcuuid[..|lcuuid| - 2] + "ff"
  }

  /** The AZ lcuuid equals the generated uuid exactly when that uuid already ends in "ff". */
  lemma AZLcuuidFixedPoint(uuidGenerate: string, getUUID: string -> string)
    requires |getUUID(uuidGenerate)| >= 2
    ensures GetAZLcuuidFromUUIDGenerate(uuidGenerate, getUUID) == getUUID(uuidGenerate) <==>
      Text.HasSuffix(getUUID(uuidGenerate), "ff")
  {
    var u := getUUID(uuidGenerate);
    var r := GetAZLcuuidFromUUIDGenerate(uuidGenerate, getUUID);
    if Text.HasSuffix(u, "ff") {
      assert u == u[..|u| - 2] + u[|u| - 2..];
    }
  }
}
