/**
 * The controller's view of its TSDB (analyzer) nodes: a per-node cache of the
 * system information a node last reported, the map from node IP to cache
 * entry, and the discovery buffer that collects the registrations of nodes
 * the database does not know yet until the next sync drains it.
 *
 * Go's optional fields (`*string`, `*time.Time`) are `Option` values: `None`
 * is nil. Times are integers. The generated lcuuid of a registration comes
 * from a random generator and is a parameter.
 */
module TsdbNode {
  import opened Wrappers

  /** Analyzer state code the controller gives a freshly registered node. */
  const HOST_STATE_COMPLETE: int := 2
  /** Upper bound on the agents one TSDB node serves, as registered. */
  const TSDB_VTAP_MAX: int := 1024

  const INT64_MIN: int := -0x8000_0000_0000_0000
  const INT64_MAX: int := 0x7fff_ffff_ffff_ffff
  const UINT64_MODULUS: int := 0x1_0000_0000_0000_0000

  /** The analyzer row (models.Analyzer) as far as the node cache and discovery use it. */
  datatype Analyzer = Analyzer(ip: string, natIPEnabled: int, natIP: string, name: string,
                               cpuNum: int, memorySize: int, arch: string, os: string,
                               kernelVersion: string, vtapMax: int, state: int, lcuuid: string,
                               pcapDataMountPath: string, syncedAt: int)

  /** The part of a node's sync request that registration reads; `tsdbReportInfo` is nil or carries the pcap path. */
  datatype SyncRequest = SyncRequest(ctrlIp: string, host: string, cpuNum: nat, memorySize: nat,
                                     arch: string, os: string, kernelVersion: string,
                                     tsdbReportInfo: Option<string>)

  /** Go's int64(x) of a uint64 x: two's-complement reinterpretation. */
  function Int64OfUint64(x: nat): (r: int)
    requires x < UINT64_MODULUS
    ensures INT64_MIN <= r <= INT64_MAX
    ensures (r - x) % UINT64_MODULUS == 0
    ensures x <= INT64_MAX ==> r == x
    ensures x > INT64_MAX ==> r < 0
  {
    if x <= INT64_MAX then x else x - UINT64_MODULUS
  }

  /**
   * The analyzer row a registration builds from a request: the node's
   * control IP, name and system information, no NAT, the TSDB agent limit,
   * the complete state, the given lcuuid, and the pcap path of the report
   * info or "" when the request has none.
   */
  function Registered(request: SyncRequest, lcuuid: string): (a: Analyzer)
    requires request.memorySize < UINT64_MODULUS
    ensures a.ip == request.ctrlIp && a.name == request.host && a.lcuuid == lcuuid
    ensures a.natIPEnabled == 0 && a.natIP == ""
    ensures a.vtapMax == TSDB_VTAP_MAX && a.state == HOST_STATE_COMPLETE
    ensures a.cpuNum == request.cpuNum
    ensures INT64_MIN <= a.memorySize <= INT64_MAX
    ensures request.memorySize <= INT64_MAX ==> a.memorySize == request.memorySize
    ensures a.arch == request.arch && a.os == request.os && a.kernelVersion == request.kernelVersion
    ensures request.tsdbReportInfo.None? ==> a.pcapDataMountPath == ""
    ensures request.tsdbReportInfo.Some? ==> a.pcapDataMountPath == request.tsdbReportInfo.value
  {
    var pcapDataMountPath := if request.tsdbReportInfo.Some? then request.tsdbReportInfo.value else "";
    Analyzer(request.ctrlIp, 0, "", request.host, request.cpuNum, Int64OfUint64(request.memorySize),
             request.arch, request.os, request.kernelVersion, TSDB_VTAP_MAX, HOST_STATE_COMPLETE,
             lcuuid, pcapDataMountPath, 0)
  }

  /** The system information a node last reported, plus its sync bookkeeping. */
  class TSDBCache {
    var syncedAt: Option<int>
    var cpuNum: int
    var memorySize: int
    var ip: string
    var arch: Option<string>
    var os: Option<string>
    var kernelVersion: Option<string>
    var natIP: Option<string>
    var pcapDataMountPath: Option<string>
    var syncFlag: bool

    /** newTSDBCache: copies the analyzer's fields; the sync flag starts unset. */
    constructor (tsdb: Analyzer)
      ensures syncedAt == Some(tsdb.syncedAt) && cpuNum == tsdb.cpuNum && memorySize == tsdb.memorySize
      ensures ip == tsdb.ip && natIP == Some(tsdb.natIP)
      ensures GetKey() == tsdb.ip
      ensures GetArch() == tsdb.arch && GetOS() == tsdb.os && GetKernelVersion() == tsdb.kernelVersion
      ensures GetPcapDataMountPath() == tsdb.pcapDataMountPath
      ensures !syncFlag
    {
      syncedAt := Some(tsdb.syncedAt);
      cpuNum := tsdb.cpuNum;
      memorySize := tsdb.memorySize;
      ip := tsdb.ip;
      arch := Some(tsdb.arch);
      os := Some(tsdb.os);
      kernelVersion := Some(tsdb.kernelVersion);
      natIP := Some(tsdb.natIP);
      pcapDataMountPath := Some(tsdb.pcapDataMountPath);
      syncFlag := false;
    }

    /** A cache entry is keyed by its node's IP. */
    function GetKey(): (k: string)
      reads this
      ensures k == ip
    {
      ip
    }

    function GetArch(): (r: string)
      reads this
      ensures arch.None? ==> r == ""
      ensures arch.Some? ==> r == arch.value
    {
      if arch.Some? then arch.value else ""
    }

    function GetOS(): (r: string)
      reads this
      ensures os.None? ==> r == ""
      ensures os.Some? ==> r == os.value
    {
      if os.Some? then os.value else ""
    }

    function GetKernelVersion(): (r: string)
      reads this
      ensures kernelVersion.None? ==> r == ""
      ensures kernelVersion.Some? ==> r == kernelVersion.value
    {
      if kernelVersion.Some? then kernelVersion.value else ""
    }

    function GetPcapDataMountPath(): (r: string)
      reads this
      ensures pcapDataMountPath.None? ==> r == ""
      ensures pcapDataMountPath.Some? ==> r == pcapDataMountPath.value
    {
      if pcapDataMountPath.Some? then pcapDataMountPath.value else ""
    }

    method SetSyncFlag()
      modifies this
      ensures syncFlag
      ensures Unchanged(this, old(Snapshot()))
    {
      syncFlag := true;
    }

    method UnsetSyncFlag()
      modifies this
      ensures !syncFlag
      ensures Unchanged(this, old(Snapshot()))
    {
      syncFlag := false;
    }

    method UpdateNatIP(natIP: string)
      modifies this
      ensures this.natIP == Some(natIP)
      ensures syncFlag == old(syncFlag) && syncedAt == old(syncedAt)
      ensures cpuNum == old(cpuNum) && memorySize == old(memorySize) && ip == old(ip)
      ensures arch == old(arch) && os == old(os) && kernelVersion == old(kernelVersion)
      ensures pcapDataMountPath == old(pcapDataMountPath)
    {
      this.natIP := Some(natIP);
    }

    /** Records a sync time and marks the node as synced. */
    method UpdateSyncedAt(syncedAt: int)
      modifies this
      ensures this.syncedAt == Some(syncedAt) && syncFlag
      ensures cpuNum == old(cpuNum) && memorySize == old(memorySize) && ip == old(ip)
      ensures arch == old(arch) && os == old(os) && kernelVersion == old(kernelVersion)
      ensures natIP == old(natIP) && pcapDataMountPath == old(pcapDataMountPath)
    {
      this.syncedAt := Some(syncedAt);
      SetSyncFlag();
    }

    /** Replaces the six reported system-information fields and nothing else. */
    method UpdateSystemInfo(cpuNum: int, memorySize: int, arch: string, os: string,
                            kernelVersion: string, pcapDataMountPath: string)
      modifies this
      ensures this.cpuNum == cpuNum && this.memorySize == memorySize
      ensures GetArch() == arch && GetOS() == os && GetKernelVersion() == kernelVersion
      ensures GetPcapDataMountPath() == pcapDataMountPath
      ensures ip == old(ip) && natIP == old(natIP) && syncedAt == old(syncedAt) && syncFlag == old(syncFlag)
    {
      this.cpuNum := cpuNum;
      this.memorySize := memorySize;
      this.arch := Some(arch);
      this.os := Some(os);
      this.kernelVersion := Some(kernelVersion);
      this.pcapDataMountPath := Some(pcapDataMountPath);
    }

    /** Every field except the sync flag, for stating what flag updates leave alone. */
    function Snapshot(): CacheFields
      reads this
    {
      CacheFields(syncedAt, cpuNum, memorySize, ip, arch, os, kernelVersion, natIP, pcapDataMountPath)
    }
  }

  datatype CacheFields = CacheFields(syncedAt: Option<int>, cpuNum: int, memorySize: int, ip: string,
                                     arch: Option<string>, os: Option<string>, kernelVersion: Option<string>,
                                     natIP: Option<string>, pcapDataMountPath: Option<string>)

  predicate Unchanged(c: TSDBCache, before: CacheFields)
    reads c
  {
    c.Snapshot() == before
  }

  /** The controller's TSDB caches, keyed by node IP. */
  class TSDBCacheMap {
    var keyToTSDBCache: map<string, TSDBCache>

    constructor ()
      ensures keyToTSDBCache == map[]
    {
      keyToTSDBCache := map[];
    }

    /** The entry under `key`, or nil. */
    function Get(key: string): (r: Option<TSDBCache>)
      reads this
      ensures r.None? <==> key !in keyToTSDBCache
      ensures r.Some? ==> r.value == keyToTSDBCache[key]
    {
      if key in keyToTSDBCache then Some(keyToTSDBCache[key]) else None
    }

    /** Stores the entry under its key, replacing any previous entry for that IP. */
    method Add(tsdbCache: TSDBCache)
      modifies this
      ensures Get(tsdbCache.GetKey()) == Some(tsdbCache)
      ensures forall k :: k != tsdbCache.ip ==> Get(k) == old(Get(k))
      ensures keyToTSDBCache.Keys == old(keyToTSDBCache.Keys) + {tsdbCache.ip}
    {
      keyToTSDBCache := keyToTSDBCache[tsdbCache.GetKey() := tsdbCache];
    }

    /** Removes the entry for `key`, if any. */
    method Delete(key: string)
      modifies this
      ensures Get(key) == None
      ensures forall k :: k != key ==> Get(k) == old(Get(k))
      ensures keyToTSDBCache.Keys == old(keyToTSDBCache.Keys) - {key}
    {
      keyToTSDBCache := keyToTSDBCache - {key};
    }

    /** The keys of the map, each once, in the map's iteration order. */
    method List() returns (keys: seq<string>)
      ensures |keys| == |keyToTSDBCache|
      ensures forall k :: k in keys <==> k in keyToTSDBCache
      ensures forall i, j :: 0 <= i < j < |keys| ==> keys[i] != keys[j]
    {
      keys := [];
      var todo := keyToTSDBCache.Keys;
      while todo != {}
        invariant todo <= keyToTSDBCache.Keys
        invariant forall k :: k in keys <==> k in keyToTSDBCache && k !in todo
        invariant forall i, j :: 0 <= i < j < |keys| ==> keys[i] != keys[j]
        invariant |keys| + |todo| == |keyToTSDBCache|
        decreases |todo|
      {
        var key :| key in todo;
        keys := keys + [key];
        todo := todo - {key};
      }
      assert keyToTSDBCache.Keys == set k | k in keys;
    }

    /** The set of the map's keys. */
    method GetKeySet() returns (keys: set<string>)
      ensures forall k :: k in keys <==> k in keyToTSDBCache
    {
      keys := {};
      var todo := keyToTSDBCache.Keys;
      while todo != {}
        invariant todo <= keyToTSDBCache.Keys
        invariant forall k :: k in keys <==> k in keyToTSDBCache && k !in todo
        decreases |todo|
      {
        var key :| key in todo;
        keys := keys + {key};
        todo := todo - {key};
      }
    }
  }

  /** Registrations of nodes not yet in the database, waiting for the next sync. */
  class TSDBDiscovery {
    var registration: map<string, Analyzer>

    constructor ()
      ensures registration == map[]
    {
      registration := map[];
    }

    /** Records the analyzer a request describes under its control IP, replacing an earlier registration from that IP. */
    method Register(request: SyncRequest, lcuuid: string)
      requires request.memorySize < UINT64_MODULUS
      modifies this
      ensures registration == old(registration)[request.ctrlIp := Registered(request, lcuuid)]
    {
      var pcapDataMountPath := "";
      if request.tsdbReportInfo.Some? {
        pcapDataMountPath := request.tsdbReportInfo.value;
      }
      var tsdb := Analyzer(request.ctrlIp, 0, "", request.host, request.cpuNum, Int64OfUint64(request.memorySize),
                           request.arch, request.os, request.kernelVersion, TSDB_VTAP_MAX, HOST_STATE_COMPLETE,
                           lcuuid, pcapDataMountPath, 0);
      registration := registration[request.ctrlIp := tsdb];
    }

    /** Hands over everything registered so far and starts an empty buffer. */
    method GetRegisterData() returns (data: map<string, Analyzer>)
      modifies this
      ensures data == old(registration)
      ensures registration == map[]
    {
      data := registration;
      registration := map[];
    }
  }

  /** The buffer after registering `requests` in order, the i-th with lcuuid `lcuuids[i]`. */
  function RegisterAll(registration: map<string, Analyzer>, requests: seq<SyncRequest>, lcuuids: seq<string>): map<string, Analyzer>
    requires |lcuuids| == |requests|
    requires forall i :: 0 <= i < |requests| ==> requests[i].memorySize < UINT64_MODULUS
  {
    if requests == [] then registration
    else
      var n := |requests| - 1;
      RegisterAll(registration, requests[..n], lcuuids[..n])[requests[n].ctrlIp := Registered(requests[n], lcuuids[n])]
  }

  /** Registers every request in order on one discovery buffer. */
  method RegisterEach(discovery: TSDBDiscovery, requests: seq<SyncRequest>, lcuuids: seq<string>)
    requires |lcuuids| == |requests|
    requires forall i :: 0 <= i < |requests| ==> requests[i].memorySize < UINT64_MODULUS
    modifies discovery
    ensures discovery.registration == RegisterAll(old(discovery.registration), requests, lcuuids)
  {
    var i := 0;
    while i < |requests|
      invariant 0 <= i <= |requests|
      invariant discovery.registration == RegisterAll(old(discovery.registration), requests[..i], lcuuids[..i])
    {
      assert requests[..i + 1][..i] == requests[..i];
      assert lcuuids[..i + 1][..i] == lcuuids[..i];
      discovery.Register(requests[i], lcuuids[i]);
      i := i + 1;
    }
    assert requests[..|requests|] == requests;
    assert lcuuids[..|lcuuids|] == lcuuids;
  }

  /** After a run of registrations the buffer holds exactly the earlier entries and the requesting IPs. */
  lemma {:induction false} RegisterAllKeys(registration: map<string, Analyzer>, requests: seq<SyncRequest>, lcuuids: seq<string>)
    requires |lcuuids| == |requests|
    requires forall i :: 0 <= i < |requests| ==> requests[i].memorySize < UINT64_MODULUS
    ensures forall ip :: ip in RegisterAll(registration, requests, lcuuids) <==>
      (ip in registration || exists i :: 0 <= i < |requests| && requests[i].ctrlIp == ip)
  {
    if requests != [] {
      var n := |requests| - 1;
      RegisterAllKeys(registration, requests[..n], lcuuids[..n]);
      forall ip
        ensures ip in RegisterAll(registration, requests, lcuuids) <==>
          (ip in registration || exists i :: 0 <= i < |requests| && requests[i].ctrlIp == ip)
      {
        if exists i :: 0 <= i < |requests| && requests[i].ctrlIp == ip {
          var i :| 0 <= i < |requests| && requests[i].ctrlIp == ip;
          if i < n {
            assert requests[..n][i].ctrlIp == ip;
          }
        }
        if exists i :: 0 <= i < n && requests[..n][i].ctrlIp == ip {
          var i :| 0 <= i < n && requests[..n][i].ctrlIp == ip;
          assert requests[i].ctrlIp == ip;
        }
      }
    }
  }

  /** Each requesting IP holds the analyzer built from its LAST request. */
  lemma {:induction false} LastRegistrationWins(registration: map<string, Analyzer>, requests: seq<SyncRequest>, lcuuids: seq<string>, i: nat)
    requires |lcuuids| == |requests|
    requires forall k :: 0 <= k < |requests| ==> requests[k].memorySize < UINT64_MODULUS
    requires i < |requests|
    requires forall j :: i < j < |requests| ==> requests[j].ctrlIp != requests[i].ctrlIp
    ensures requests[i].ctrlIp in RegisterAll(registration, requests, lcuuids)
    ensures RegisterAll(registration, requests, lcuuids)[requests[i].ctrlIp] == Registered(requests[i], lcuuids[i])
  {
    var n := |requests| - 1;
    if i < n {
      assert requests[..n][i] == requests[i] && lcuuids[..n][i] == lcuuids[i];
      assert forall j :: i < j < n ==> requests[..n][j] == requests[j];
      LastRegistrationWins(registration, requests[..n], lcuuids[..n], i);
    }
  }

  /** An IP that did not register keeps its earlier entry. */
  lemma {:induction false} RegisterAllKeepsOthers(registration: map<string, Analyzer>, requests: seq<SyncRequest>, lcuuids: seq<string>, ip: string)
    requires |lcuuids| == |requests|
    requires forall k :: 0 <= k < |requests| ==> requests[k].memorySize < UINT64_MODULUS
    requires ip in registration
    requires forall k :: 0 <= k < |requests| ==> requests[k].ctrlIp != ip
    ensures ip in RegisterAll(registration, requests, lcuuids)
    ensures RegisterAll(registration, requests, lcuuids)[ip] == registration[ip]
  {
    if requests != [] {
      var n := |requests| - 1;
      assert forall k :: 0 <= k < n ==> requests[..n][k] == requests[k];
      RegisterAllKeepsOthers(registration, requests[..n], lcuuids[..n], ip);
    }
  }
}
