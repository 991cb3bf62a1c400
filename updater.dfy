/**
 * Two of the recorder's typed updaters.
 *
 * The IP updater splits the snapshot's IPs into WAN and LAN IPs by the type
 * of the vinterface each one hangs off (looked up in the domain cache) and
 * hands each list to its own sub-updater.
 *
 * The sub-domain updater is one instance of the generic diff/apply pattern:
 * a diff base (a map from lcuuid to the cached projection of the stored
 * row) is compared with the snapshot's items; new items are added, known
 * items are offered for update, and cached items missing from the snapshot
 * are deleted.
 */
module Updater {
  import opened Wrappers

  // ---------------------------------------------------------------- IP

  /** common.VIF_TYPE_WAN: the vinterface type of a public (WAN) interface. */
  const VIF_TYPE_WAN: int := 3

  datatype CloudIP = CloudIP(lcuuid: string, vinterfaceLcuuid: string, ip: string, subnetLcuuid: string, regionLcuuid: string)

  /** An IP whose vinterface is in the cache; the others are logged and dropped. */
  predicate Kept(vifTypes: map<string, int>, x: CloudIP)
  {
    x.vinterfaceLcuuid in vifTypes
  }

  predicate IsWAN(vifTypes: map<string, int>, x: CloudIP)
  {
    Kept(vifTypes, x) && vifTypes[x.vinterfaceLcuuid] == VIF_TYPE_WAN
  }

  predicate IsLAN(vifTypes: map<string, int>, x: CloudIP)
  {
    Kept(vifTypes, x) && vifTypes[x.vinterfaceLcuuid] != VIF_TYPE_WAN
  }

  /** The WAN IPs of `data`, in input order. */
  function WANOf(vifTypes: map<string, int>, data: seq<CloudIP>): seq<CloudIP>
  {
    if data == [] then []
    else
      var last := data[|data| - 1];
      WANOf(vifTypes, data[..|data| - 1]) + (if IsWAN(vifTypes, last) then [last] else [])
  }

  /** The LAN IPs of `data`, in input order. */
  function LANOf(vifTypes: map<string, int>, data: seq<CloudIP>): seq<CloudIP>
  {
    if data == [] then []
    else
      var last := data[|data| - 1];
      LANOf(vifTypes, data[..|data| - 1]) + (if IsLAN(vifTypes, last) then [last] else [])
  }

  /** The IPs of `data` that survive the cache lookup, in input order. */
  function KeptOf(vifTypes: map<string, int>, data: seq<CloudIP>): seq<CloudIP>
  {
    if data == [] then []
    else
      var last := data[|data| - 1];
      KeptOf(vifTypes, data[..|data| - 1]) + (if Kept(vifTypes, last) then [last] else [])
  }

  /** An IP is in the WAN (LAN) list iff it is in the input, kept, and WAN (not WAN). */
  lemma {:induction false} SplitMembership(vifTypes: map<string, int>, data: seq<CloudIP>)
    ensures forall x :: x in WANOf(vifTypes, data) <==> x in data && IsWAN(vifTypes, x)
    ensures forall x :: x in LANOf(vifTypes, data) <==> x in data && IsLAN(vifTypes, x)
  {
    if data != [] {
      var init := data[..|data| - 1];
      SplitMembership(vifTypes, init);
      assert data == init + [data[|data| - 1]];
    }
  }

  /** Every kept IP lands in exactly one of the two lists: together they are the kept IPs. */
  lemma {:induction false} SplitIsPartition(vifTypes: map<string, int>, data: seq<CloudIP>)
    ensures multiset(WANOf(vifTypes, data)) + multiset(LANOf(vifTypes, data)) == multiset(KeptOf(vifTypes, data))
    ensures |KeptOf(vifTypes, data)| <= |data|
  {
    if data != [] {
      SplitIsPartition(vifTypes, data[..|data| - 1]);
    }
  }

  /** The split respects input order: splitting a concatenation concatenates the splits. */
  lemma {:induction false} SplitPreservesOrder(vifTypes: map<string, int>, a: seq<CloudIP>, b: seq<CloudIP>)
    ensures WANOf(vifTypes, a + b) == WANOf(vifTypes, a) + WANOf(vifTypes, b)
    ensures LANOf(vifTypes, a + b) == LANOf(vifTypes, a) + LANOf(vifTypes, b)
  {
    if b == [] {
      assert a + b == a;
    } else {
      var init := b[..|b| - 1];
      SplitPreservesOrder(vifTypes, a, init);
      assert (a + b)[..|a + b| - 1] == a + init;
    }
  }

  /** What the IP updater asks of its two sub-updaters. */
  datatype IPCall = WANAddAndUpdate(items: seq<CloudIP>) | LANAddAndUpdate(items: seq<CloudIP>)
                  | WANDelete | LANDelete

  class IP {
    /** The vinterface types of the domain cache, by vinterface lcuuid. */
    var vifTypes: map<string, int>
    var cloudData: seq<CloudIP>
    /** The WAN and LAN sub-updaters, given by the cloud data they were built with; None while nil. */
    var wanIPUpdater: Option<seq<CloudIP>>
    var lanIPUpdater: Option<seq<CloudIP>>
    var calls: seq<IPCall>

    /** NewIP: the sub-updaters stay nil until HandleAddAndUpdate. */
    constructor (vifTypes: map<string, int>, cloudData: seq<CloudIP>)
      ensures this.vifTypes == vifTypes && this.cloudData == cloudData
      ensures wanIPUpdater.None? && lanIPUpdater.None? && calls == []
    {
      this.vifTypes := vifTypes;
      this.cloudData := cloudData;
      wanIPUpdater := None;
      lanIPUpdater := None;
      calls := [];
    }

    /** splitToWANAndLAN: one pass, appending each kept IP to the list of its vinterface's type. */
    method SplitToWANAndLAN(data: seq<CloudIP>) returns (wan: seq<CloudIP>, lan: seq<CloudIP>)
      ensures wan == WANOf(vifTypes, data) && lan == LANOf(vifTypes, data)
    {
      wan, lan := [], [];
      var i := 0;
      while i < |data|
        invariant 0 <= i <= |data|
        invariant wan == WANOf(vifTypes, data[..i]) && lan == LANOf(vifTypes, data[..i])
      {
        assert data[..i + 1][..i] == data[..i];
        var item := data[i];
        if item.vinterfaceLcuuid in vifTypes {
          if vifTypes[item.vinterfaceLcuuid] == VIF_TYPE_WAN {
            wan := wan + [item];
          } else {
            lan := lan + [item];
          }
        }
        i := i + 1;
      }
      assert data[..|data|] == data;
    }

    /** Builds both sub-updaters from the split, then runs WAN before LAN. */
    method HandleAddAndUpdate()
      modifies this`wanIPUpdater, this`lanIPUpdater, this`calls
      ensures wanIPUpdater == Some(WANOf(vifTypes, cloudData))
      ensures lanIPUpdater == Some(LANOf(vifTypes, cloudData))
      ensures calls == old(calls) + [WANAddAndUpdate(WANOf(vifTypes, cloudData)), LANAddAndUpdate(LANOf(vifTypes, cloudData))]
    {
      var wan, lan := SplitToWANAndLAN(cloudData);
      wanIPUpdater := Some(wan);
      lanIPUpdater := Some(lan);
      calls := calls + [WANAddAndUpdate(wan)];
      calls := calls + [LANAddAndUpdate(lan)];
    }

    /** Runs the WAN delete before the LAN delete; the sub-updaters must have been built. */
    method HandleDelete()
      requires wanIPUpdater.Some? && lanIPUpdater.Some?
      modifies this`calls
      ensures calls == old(calls) + [WANDelete, LANDelete]
    {
      calls := calls + [WANDelete];
      calls := calls + [LANDelete];
    }
  }

  // ---------------------------------------------------------------- sub-domain

  datatype CloudSubDomain = CloudSubDomain(lcuuid: string, name: string, clusterID: string, config: string)

  /** The stored sub-domain row; the cache keeps it as the diff base projection. */
  datatype SubDomainRow = SubDomainRow(lcuuid: string, name: string, displayName: string,
                                       clusterID: string, config: string, domain: string)

  /** getDiffBaseByCloudItem: the cached projection under the item's lcuuid, if any. */
  function GetDiffBaseByCloudItem(diffBase: map<string, SubDomainRow>, item: CloudSubDomain): (r: Option<SubDomainRow>)
    ensures r.Some? <==> item.lcuuid in diffBase
    ensures r.Some? ==> r.value == diffBase[item.lcuuid]
  {
    if item.lcuuid in diffBase then Some(diffBase[item.lcuuid]) else None
  }

  /** generateDBItemToAdd: always succeeds; the display name is the name and the domain is the cache's. */
  function GenerateDBItemToAdd(domainLcuuid: string, item: CloudSubDomain): (r: (SubDomainRow, bool))
    ensures r.1
    ensures r.0.lcuuid == item.lcuuid && r.0.name == item.name && r.0.displayName == item.name
    ensures r.0.clusterID == item.clusterID && r.0.config == item.config && r.0.domain == domainLcuuid
  {
    (SubDomainRow(item.lcuuid, item.name, item.name, item.clusterID, item.config, domainLcuuid), true)
  }

  /** generateUpdateInfo: reserved; a known sub-domain is never updated. */
  function GenerateUpdateInfo(diffBase: SubDomainRow, item: CloudSubDomain): (r: (map<string, string>, bool))
    ensures !r.1 && r.0 == map[]
  {
    (map[], false)
  }

  /** The rows generated for the items not yet in the diff base, in snapshot order. */
  function RowsToAdd(domainLcuuid: string, diffBase: map<string, SubDomainRow>, cloud: seq<CloudSubDomain>): seq<SubDomainRow>
  {
    if cloud == [] then []
    else
      var last := cloud[|cloud| - 1];
      RowsToAdd(domainLcuuid, diffBase, cloud[..|cloud| - 1])
      + (if GetDiffBaseByCloudItem(diffBase, last).None? then [GenerateDBItemToAdd(domainLcuuid, last).0] else [])
  }

  /** One more snapshot item adds its generated row exactly when its lcuuid is not in the diff base. */
  lemma RowsToAddSnoc(domainLcuuid: string, diffBase: map<string, SubDomainRow>, cloud: seq<CloudSubDomain>, i: nat)
    requires i < |cloud|
    ensures RowsToAdd(domainLcuuid, diffBase, cloud[..i + 1]) == RowsToAdd(domainLcuuid, diffBase, cloud[..i]) +
      (if cloud[i].lcuuid !in diffBase then [GenerateDBItemToAdd(domainLcuuid, cloud[i]).0] else [])
  {
    assert cloud[..i + 1][..i] == cloud[..i];
  }

  /** The cache after adding `rows` one after the other (a later row overwrites an earlier one). */
  function AddRows(m: map<string, SubDomainRow>, rows: seq<SubDomainRow>): map<string, SubDomainRow>
  {
    if rows == [] then m
    else
      var last := rows[|rows| - 1];
      AddRows(m, rows[..|rows| - 1])[last.lcuuid := last]
  }

  function CloudKeys(cloud: seq<CloudSubDomain>): set<string>
  {
    set i | 0 <= i < |cloud| :: cloud[i].lcuuid
  }

  /** The cache after the delete pass: the entries whose lcuuid is still in the snapshot. */
  function KeepCloudKeys(m: map<string, SubDomainRow>, cloud: seq<CloudSubDomain>): map<string, SubDomainRow>
  {
    map k | k in m && k in CloudKeys(cloud) :: m[k]
  }

  /** The rows to add are exactly the generated rows of the items missing from the diff base. */
  lemma {:induction false} RowsToAddAreNew(domainLcuuid: string, diffBase: map<string, SubDomainRow>, cloud: seq<CloudSubDomain>)
    ensures forall r :: r in RowsToAdd(domainLcuuid, diffBase, cloud) ==> r.lcuuid !in diffBase && r.domain == domainLcuuid
    ensures forall i :: 0 <= i < |cloud| && cloud[i].lcuuid !in diffBase ==>
      GenerateDBItemToAdd(domainLcuuid, cloud[i]).0 in RowsToAdd(domainLcuuid, diffBase, cloud)
  {
    if cloud != [] {
      var init := cloud[..|cloud| - 1];
      RowsToAddAreNew(domainLcuuid, diffBase, init);
      forall i | 0 <= i < |cloud| && cloud[i].lcuuid !in diffBase
        ensures GenerateDBItemToAdd(domainLcuuid, cloud[i]).0 in RowsToAdd(domainLcuuid, diffBase, cloud)
      {
        if i < |init| {
          assert cloud[i] == init[i];
        }
      }
    }
  }

  /** Adding rows keeps every old entry not overwritten and adds exactly the rows' keys. */
  lemma {:induction false} AddRowsFrame(m: map<string, SubDomainRow>, rows: seq<SubDomainRow>)
    ensures AddRows(m, rows).Keys == m.Keys + (set r | r in rows :: r.lcuuid)
    ensures forall k :: k in m && (forall r :: r in rows ==> r.lcuuid != k) ==> AddRows(m, rows)[k] == m[k]
  {
    if rows != [] {
      var init := rows[..|rows| - 1];
      AddRowsFrame(m, init);
      assert rows == init + [rows[|rows| - 1]];
    }
  }

  /**
   * One reconciliation converges: after the add/update pass and the delete
   * pass the cache holds exactly the snapshot's lcuuids, and every sub-domain
   * that was cached and is still in the snapshot keeps its cached row.
   */
  lemma ReconcileConverges(domainLcuuid: string, diffBase: map<string, SubDomainRow>, cloud: seq<CloudSubDomain>)
    ensures var after := KeepCloudKeys(AddRows(diffBase, RowsToAdd(domainLcuuid, diffBase, cloud)), cloud);
      after.Keys == CloudKeys(cloud) &&
      forall k :: k in diffBase && k in CloudKeys(cloud) ==> after[k] == diffBase[k]
  {
    var rows := RowsToAdd(domainLcuuid, diffBase, cloud);
    RowsToAddAreNew(domainLcuuid, diffBase, cloud);
    AddRowsFrame(diffBase, rows);
    var added := AddRows(diffBase, rows);
    forall k | k in CloudKeys(cloud) ensures k in added {
      var i :| 0 <= i < |cloud| && cloud[i].lcuuid == k;
      if k !in diffBase {
        assert GenerateDBItemToAdd(domainLcuuid, cloud[i]).0 in rows;
      }
    }
  }

  /** The add/update loop: walks the snapshot and generates a row for every item the diff base lacks. */
  method CollectRowsToAdd(domainLcuuid: string, base: map<string, SubDomainRow>, cloud: seq<CloudSubDomain>)
    returns (toAdd: seq<SubDomainRow>)
    ensures toAdd == RowsToAdd(domainLcuuid, base, cloud)
  {
    toAdd := [];
    var i := 0;
    while i < |cloud|
      invariant 0 <= i <= |cloud|
      invariant toAdd == RowsToAdd(domainLcuuid, base, cloud[..i])
    {
      RowsToAddSnoc(domainLcuuid, base, cloud, i);
      var item := cloud[i];
      var diffBase := GetDiffBaseByCloudItem(base, item);
      if diffBase.None? {
        var (row, ok) := GenerateDBItemToAdd(domainLcuuid, item);
        if ok {
          toAdd := toAdd + [row];
        }
      } else {
        var (info, changed) := GenerateUpdateInfo(diffBase.value, item);
        assert !changed;
      }
      i := i + 1;
    }
    assert cloud[..|cloud|] == cloud;
  }

  /** What the sub-domain updater writes to the database. */
  datatype DBCall = DBAdd(rows: seq<SubDomainRow>) | DBDelete(lcuuids: seq<string>)

  class SubDomainUpdater {
    var domainLcuuid: string
    /** wholeCache.SubDomains, the diff base of this updater. */
    var diffBaseData: map<string, SubDomainRow>
    var cloudData: seq<CloudSubDomain>
    var dbCalls: seq<DBCall>

    constructor (domainLcuuid: string, diffBaseData: map<string, SubDomainRow>, cloudData: seq<CloudSubDomain>)
      ensures this.domainLcuuid == domainLcuuid && this.diffBaseData == diffBaseData
      ensures this.cloudData == cloudData && dbCalls == []
    {
      this.domainLcuuid := domainLcuuid;
      this.diffBaseData := diffBaseData;
      this.cloudData := cloudData;
      dbCalls := [];
    }

    /** addCache: the cache takes the added rows under their lcuuids. */
    method AddCache(rows: seq<SubDomainRow>)
      modifies this`diffBaseData
      ensures diffBaseData == AddRows(old(diffBaseData), rows)
    {
      var i := 0;
      while i < |rows|
        invariant 0 <= i <= |rows|
        invariant diffBaseData == AddRows(old(diffBaseData), rows[..i])
      {
        assert rows[..i + 1][..i] == rows[..i];
        diffBaseData := diffBaseData[rows[i].lcuuid := rows[i]];
        i := i + 1;
      }
      assert rows[..|rows|] == rows;
    }

    /** deleteCache: the cache drops the given lcuuids. */
    method DeleteCache(lcuuids: seq<string>)
      modifies this`diffBaseData
      ensures diffBaseData == old(diffBaseData) - set k | k in lcuuids
    {
      diffBaseData := diffBaseData - set k | k in lcuuids;
    }

    /** The add/update pass: new items are generated, stored and cached; known items are never updated. */
    method HandleAddAndUpdate()
      modifies this`diffBaseData, this`dbCalls
      ensures var rows := RowsToAdd(domainLcuuid, old(diffBaseData), cloudData);
        diffBaseData == AddRows(old(diffBaseData), rows) &&
        dbCalls == old(dbCalls) + (if rows == [] then [] else [DBAdd(rows)])
    {
      var toAdd := CollectRowsToAdd(domainLcuuid, diffBaseData, cloudData);
      if toAdd != [] {
        dbCalls := dbCalls + [DBAdd(toAdd)];
        AddCache(toAdd);
      }
    }

    /** The delete pass: every cached sub-domain missing from the snapshot is deleted from store and cache. */
    method HandleDelete()
      modifies this`diffBaseData, this`dbCalls
      ensures diffBaseData == KeepCloudKeys(old(diffBaseData), cloudData)
      ensures var stale := old(diffBaseData).Keys - CloudKeys(cloudData);
        if stale == {} then dbCalls == old(dbCalls)
        else
          |dbCalls| == |old(dbCalls)| + 1 && dbCalls[..|old(dbCalls)|] == old(dbCalls) &&
          dbCalls[|old(dbCalls)|].DBDelete? && forall k :: k in dbCalls[|old(dbCalls)|].lcuuids <==> k in stale
    {
      var keys := CloudKeys(cloudData);
      var todo := diffBaseData.Keys;
      var toDelete: seq<string> := [];
      while todo != {}
        invariant todo <= diffBaseData.Keys
        invariant forall k :: k in toDelete <==> k in diffBaseData && k !in todo && k !in keys
        decreases todo
      {
        var k :| k in todo;
        if k !in keys {
          toDelete := toDelete + [k];
        }
        todo := todo - {k};
      }
      assert forall k :: k in toDelete <==> k in old(diffBaseData).Keys - keys;
      if toDelete != [] {
        assert toDelete[0] in old(diffBaseData).Keys - keys;
        dbCalls := dbCalls + [DBDelete(toDelete)];
        DeleteCache(toDelete);
      }
    }
  }
}
