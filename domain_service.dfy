/**
 * The domain service of the controller: listing domains (AZ and region
 * counts, controller name, pod clusters, secrets masked), creating a domain
 * (name uniqueness, region and controller defaults, Kubernetes cluster id)
 * and updating one (masked secrets restored from the stored config, the
 * controller_ip column following the config, a region change purging
 * soft-deleted resources).
 *
 * The database is given as sequences of rows and maps; a domain config is
 * the parsed JSON object, a map from key to value.
 */
module DomainService {
  import opened Wrappers
  import CloudCommon
  import opened Text

  /** A JSON value of a domain config. */
  datatype Value = Null | Str(s: string) | Num(n: int) | Bool(b: bool)

  type Config = map<string, Value>

  /** common.DEFAULT_ENCRYPTION_PASSWORD: what a listed secret reads as. */
  const DEFAULT_ENCRYPTION_PASSWORD: string := "******"
  /** common.KUBERNETES: the domain type of a Kubernetes cluster. */
  const KUBERNETES: int := 11

  const SECRET_KEYS: seq<string> := ["admin_password", "secret_key", "password", "boss_secret_key"]

  const RESOURCE_ALREADY_EXIST: string := "RESOURCE_ALREADY_EXIST"
  const INVALID_PARAMETERS: string := "INVALID_PARAMETERS"
  const RESOURCE_NOT_FOUND: string := "RESOURCE_NOT_FOUND"

  datatype DomainRow = DomainRow(lcuuid: string, name: string, displayName: string, clusterID: string,
                                 domainType: int, iconID: int, controllerIP: string, config: Config)

  datatype AZRow = AZRow(lcuuid: string, domain: string, region: string)

  datatype ControllerRow = ControllerRow(ip: string, name: string)

  datatype SubDomainRow = SubDomainRow(name: string, domain: string)

  datatype RegionRow = RegionRow(lcuuid: string)

  datatype AZControllerConnection = AZControllerConnection(region: string, controllerIP: string)

  /** A kubernetes_cluster row: the cluster id and the "ctrl_ip-ctrl_mac" of the agent that reported the cluster. */
  datatype KubernetesClusterRow = KubernetesClusterRow(clusterID: string, value: string)

  /** A vtap row: the agent's name and its control IP and MAC. */
  datatype VTapRow = VTapRow(name: string, ctrlIP: string, ctrlMac: string)

  /**
   * One listed domain (model.Domain). Its ID repeats the cluster id; the
   * enabled flag, state, error message and timestamps are columns this model
   * does not carry.
   */
  datatype DomainResp = DomainResp(lcuuid: string, name: string, displayName: string, clusterID: string,
                                   domainType: int, iconID: int, controllerIP: string,
                                   regionCount: nat, azCount: nat, controllerName: string,
                                   k8sEnabled: int, podClusters: seq<string>,
                                   vtapName: string, vtapCtrlIP: string, vtapCtrlMAC: string, config: Config)

  // ---------------------------------------------------------------- secrets

  /** The listed config: every present secret reads as the default password. */
  function MaskConfig(config: Config): Config
  {
    map k | k in config :: if k in SECRET_KEYS then Str(DEFAULT_ENCRYPTION_PASSWORD) else config[k]
  }

  /** config[key] of the stored config, nil when absent. */
  function Lookup(config: Config, key: string): Value
  {
    if key in config then config[key] else Null
  }

  /** The incoming config with every secret equal to the default password replaced by the stored value. */
  function RestoreSecrets(stored: Config, update: Config): Config
  {
    map k | k in update ::
      if k in SECRET_KEYS && update[k] == Str(DEFAULT_ENCRYPTION_PASSWORD) then Lookup(stored, k) else update[k]
  }

  /** A masked config, sent back unchanged, restores to the stored config. */
  lemma MaskRestoreRoundTrip(stored: Config)
    ensures RestoreSecrets(stored, MaskConfig(stored)) == stored
  {
    var r := RestoreSecrets(stored, MaskConfig(stored));
    assert r.Keys == stored.Keys;
    forall k | k in stored ensures r[k] == stored[k] {
      if k in SECRET_KEYS {
        assert MaskConfig(stored)[k] == Str(DEFAULT_ENCRYPTION_PASSWORD);
      }
    }
  }

  /** A secret changed to anything but the default password is taken as given; other keys are untouched. */
  lemma RestoreKeepsNewValues(stored: Config, update: Config)
    ensures RestoreSecrets(stored, update).Keys == update.Keys
    ensures forall k :: k in update && update[k] != Str(DEFAULT_ENCRYPTION_PASSWORD) ==>
      RestoreSecrets(stored, update)[k] == update[k]
    ensures forall k :: k in update && k !in SECRET_KEYS ==> RestoreSecrets(stored, update)[k] == update[k]
  {
  }

  /** The loop of GetDomains over the secret keys, on one listed config. */
  method MaskSecrets(config: Config) returns (masked: Config)
    ensures masked == MaskConfig(config)
    ensures masked.Keys == config.Keys
    ensures forall k :: k in masked && k in SECRET_KEYS ==> masked[k] == Str(DEFAULT_ENCRYPTION_PASSWORD)
  {
    masked := config;
    var i := 0;
    while i < |SECRET_KEYS|
      invariant 0 <= i <= |SECRET_KEYS|
      invariant masked.Keys == config.Keys
      invariant forall k :: k in masked ==>
        masked[k] == if k in SECRET_KEYS[..i] then Str(DEFAULT_ENCRYPTION_PASSWORD) else config[k]
    {
      var key := SECRET_KEYS[i];
      if key in masked {
        masked := masked[key := Str(DEFAULT_ENCRYPTION_PASSWORD)];
      }
      i := i + 1;
    }
    assert SECRET_KEYS[..|SECRET_KEYS|] == SECRET_KEYS;
  }

  /** The loop of UpdateDomain over the secret keys, restoring masked secrets in the incoming config. */
  method RestoreMaskedSecrets(stored: Config, update: Config) returns (restored: Config)
    ensures restored == RestoreSecrets(stored, update)
  {
    restored := update;
    var i := 0;
    while i < |SECRET_KEYS|
      invariant 0 <= i <= |SECRET_KEYS|
      invariant restored.Keys == update.Keys
      invariant forall k :: k in restored ==>
        restored[k] == if k in SECRET_KEYS[..i] && update[k] == Str(DEFAULT_ENCRYPTION_PASSWORD) then Lookup(stored, k) else update[k]
    {
      var key := SECRET_KEYS[i];
      if key in restored && restored[key] == Str(DEFAULT_ENCRYPTION_PASSWORD) {
        restored := restored[key := Lookup(stored, key)];
      }
      i := i + 1;
    }
    assert SECRET_KEYS[..|SECRET_KEYS|] == SECRET_KEYS;
  }

  // ---------------------------------------------------------------- listing

  /** The AZ lcuuids of domain `d`, in row order. */
  function AZsOf(azs: seq<AZRow>, d: string): seq<string>
  {
    if azs == [] then []
    else
      var last := azs[|azs| - 1];
      AZsOf(azs[..|azs| - 1], d) + (if last.domain == d then [last.lcuuid] else [])
  }

  /** The distinct regions of the AZs of domain `d`. */
  function RegionsOf(azs: seq<AZRow>, d: string): set<string>
  {
    if azs == [] then {}
    else
      var last := azs[|azs| - 1];
      RegionsOf(azs[..|azs| - 1], d) + (if last.domain == d then {last.region} else {})
  }

  /** The names of the sub-domains of domain `d`, in row order. */
  function SubDomainNamesOf(sds: seq<SubDomainRow>, d: string): seq<string>
  {
    if sds == [] then []
    else
      var last := sds[|sds| - 1];
      SubDomainNamesOf(sds[..|sds| - 1], d) + (if last.domain == d then [last.name] else [])
  }

  /** controllerIPToName (a later controller with the same IP wins). */
  function ControllerNames(controllers: seq<ControllerRow>): map<string, string>
  {
    if controllers == [] then map[]
    else
      var last := controllers[|controllers| - 1];
      ControllerNames(controllers[..|controllers| - 1])[last.ip := last.name]
  }

  /** The first kubernetes_cluster row of the cluster id, in table order. */
  function FirstCluster(clusters: seq<KubernetesClusterRow>, clusterID: string): Option<KubernetesClusterRow>
  {
    if clusters == [] then None
    else if clusters[0].clusterID == clusterID then Some(clusters[0])
    else FirstCluster(clusters[1..], clusterID)
  }

  /** FirstCluster finds a row of the cluster id iff there is one, and no earlier row has that id. */
  lemma {:induction false} FirstClusterSpec(clusters: seq<KubernetesClusterRow>, clusterID: string)
    ensures var r := FirstCluster(clusters, clusterID);
      (r.None? <==> forall i :: 0 <= i < |clusters| ==> clusters[i].clusterID != clusterID) &&
      (r.Some? ==> exists i :: 0 <= i < |clusters| && clusters[i] == r.value && r.value.clusterID == clusterID &&
                     forall j :: 0 <= j < i ==> clusters[j].clusterID != clusterID)
  {
    if clusters != [] && clusters[0].clusterID != clusterID {
      var tail := clusters[1..];
      FirstClusterSpec(tail, clusterID);
      assert forall i :: 1 <= i < |clusters| ==> clusters[i] == tail[i - 1];
      var r := FirstCluster(tail, clusterID);
      if r.Some? {
        var i :| 0 <= i < |tail| && tail[i] == r.value && r.value.clusterID == clusterID &&
                 forall j :: 0 <= j < i ==> tail[j].clusterID != clusterID;
        assert clusters[i + 1] == r.value && forall j :: 0 <= j < i + 1 ==> clusters[j].clusterID != clusterID;
      }
    }
  }

  /** The first vtap with the control IP and MAC, in table order. */
  function FirstVTap(vtaps: seq<VTapRow>, ip: string, mac: string): Option<VTapRow>
  {
    if vtaps == [] then None
    else if vtaps[0].ctrlIP == ip && vtaps[0].ctrlMac == mac then Some(vtaps[0])
    else FirstVTap(vtaps[1..], ip, mac)
  }

  /** FirstVTap finds a vtap with the control IP and MAC iff there is one, and no earlier vtap has them. */
  lemma {:induction false} FirstVTapSpec(vtaps: seq<VTapRow>, ip: string, mac: string)
    ensures var r := FirstVTap(vtaps, ip, mac);
      (r.None? <==> forall i :: 0 <= i < |vtaps| ==> !(vtaps[i].ctrlIP == ip && vtaps[i].ctrlMac == mac)) &&
      (r.Some? ==> exists i :: 0 <= i < |vtaps| && vtaps[i] == r.value && r.value.ctrlIP == ip && r.value.ctrlMac == mac &&
                     forall j :: 0 <= j < i ==> !(vtaps[j].ctrlIP == ip && vtaps[j].ctrlMac == mac))
  {
    if vtaps != [] && !(vtaps[0].ctrlIP == ip && vtaps[0].ctrlMac == mac) {
      var tail := vtaps[1..];
      FirstVTapSpec(tail, ip, mac);
      assert forall i :: 1 <= i < |vtaps| ==> vtaps[i] == tail[i - 1];
      var r := FirstVTap(tail, ip, mac);
      if r.Some? {
        var i :| 0 <= i < |tail| && tail[i] == r.value && r.value.ctrlIP == ip && r.value.ctrlMac == mac &&
                 forall j :: 0 <= j < i ==> !(tail[j].ctrlIP == ip && tail[j].ctrlMac == mac);
        assert vtaps[i + 1] == r.value && forall j :: 0 <= j < i + 1 ==> !(vtaps[j].ctrlIP == ip && vtaps[j].ctrlMac == mac);
      }
    }
  }

  /**
   * The agent of a Kubernetes domain: the first cluster row of its cluster
   * id holds "ctrl_ip-ctrl_mac", and the first vtap with that control IP
   * and MAC is the agent; a value that does not split into exactly two
   * parts names none.
   */
  function ClusterVTap(clusters: seq<KubernetesClusterRow>, vtaps: seq<VTapRow>, clusterID: string): Option<VTapRow>
  {
    var c := FirstCluster(clusters, clusterID);
    if c.None? then None
    else
      var v := Split(c.value.value, '-');
      if |v| != 2 then None else FirstVTap(vtaps, v[0], v[1])
  }

  /** One listed domain. */
  function DomainRespOf(row: DomainRow, azs: seq<AZRow>, controllers: map<string, string>, sds: seq<SubDomainRow>,
                        clusters: seq<KubernetesClusterRow>, vtaps: seq<VTapRow>): DomainResp
  {
    var vtap := if row.domainType == KUBERNETES then ClusterVTap(clusters, vtaps, row.clusterID) else None;
    DomainResp(row.lcuuid, row.name, row.displayName, row.clusterID, row.domainType, row.iconID, row.controllerIP,
               |RegionsOf(azs, row.lcuuid)|, |AZsOf(azs, row.lcuuid)|,
               if row.controllerIP in controllers then controllers[row.controllerIP] else "",
               if row.domainType != KUBERNETES then 1 else 0,
               if row.domainType != KUBERNETES then SubDomainNamesOf(sds, row.lcuuid) else [],
               if vtap.Some? then vtap.value.name else "",
               if vtap.Some? then vtap.value.ctrlIP else "",
               if vtap.Some? then vtap.value.ctrlMac else "",
               MaskConfig(row.config))
  }

  /**
   * A Kubernetes domain names an agent only when the first row of its
   * cluster id holds exactly that agent's control IP and MAC joined by '-';
   * conversely, a first row holding such a pair names the first vtap with it.
   */
  lemma ClusterVTapFound(clusters: seq<KubernetesClusterRow>, vtaps: seq<VTapRow>, clusterID: string)
    ensures var r := ClusterVTap(clusters, vtaps, clusterID);
      r.Some? ==> r.value in vtaps && FirstCluster(clusters, clusterID).Some? &&
                  FirstCluster(clusters, clusterID).value.value == r.value.ctrlIP + "-" + r.value.ctrlMac
    ensures forall ip, mac :: FirstCluster(clusters, clusterID).Some? &&
                              FirstCluster(clusters, clusterID).value.value == ip + "-" + mac &&
                              '-' !in ip && '-' !in mac ==>
                                ClusterVTap(clusters, vtaps, clusterID) == FirstVTap(vtaps, ip, mac)
  {
    var c := FirstCluster(clusters, clusterID);
    FirstClusterSpec(clusters, clusterID);
    if c.Some? {
      var v := Split(c.value.value, '-');
      if |v| == 2 {
        FirstVTapSpec(vtaps, v[0], v[1]);
      }
      if |v| == 2 {
        SplitTwo(c.value.value, '-');
      }
      forall ip, mac | c.value.value == ip + "-" + mac && '-' !in ip && '-' !in mac
        ensures ClusterVTap(clusters, vtaps, clusterID) == FirstVTap(vtaps, ip, mac)
      {
        SplitPair(ip, mac, '-');
      }
    }
  }

  /** domainToAZLcuuids and domainToRegionLcuuidsToAZLcuuids describe the AZ rows `azs`. */
  ghost predicate AZIndexed(azs: seq<AZRow>, domainToAZLcuuids: map<string, seq<string>>,
                            domainToRegionToAZLcuuids: map<string, map<string, seq<string>>>)
  {
    (forall d :: d in domainToAZLcuuids <==> AZsOf(azs, d) != []) &&
    (forall d :: d in domainToAZLcuuids ==> domainToAZLcuuids[d] == AZsOf(azs, d)) &&
    domainToRegionToAZLcuuids.Keys == domainToAZLcuuids.Keys &&
    (forall d :: d in domainToRegionToAZLcuuids ==> domainToRegionToAZLcuuids[d].Keys == RegionsOf(azs, d))
  }

  /** One step of the AZ grouping loop keeps the two maps describing the rows seen so far. */
  lemma AZIndexStep(azs: seq<AZRow>, az: AZRow, m1: map<string, seq<string>>, m2: map<string, map<string, seq<string>>>)
    requires AZIndexed(azs, m1, m2)
    ensures var prev := if az.domain in m1 then m1[az.domain] else [];
      var m2' := if az.domain in m2
        then m2[az.domain := m2[az.domain][az.region := (if az.region in m2[az.domain] then m2[az.domain][az.region] else []) + [az.lcuuid]]]
        else m2[az.domain := map[az.region := [az.lcuuid]]];
      AZIndexed(azs + [az], m1[az.domain := prev + [az.lcuuid]], m2')
  {
    var p := azs + [az];
    assert p[..|p| - 1] == azs;
    if az.domain !in m1 {
      AZsEmptyNoRegions(azs, az.domain);
    }
  }

  /** The grouping loop over the AZs of GetDomains. */
  method GroupAZs(azs: seq<AZRow>)
    returns (domainToAZLcuuids: map<string, seq<string>>, domainToRegionToAZLcuuids: map<string, map<string, seq<string>>>)
    ensures AZIndexed(azs, domainToAZLcuuids, domainToRegionToAZLcuuids)
  {
    domainToAZLcuuids := map[];
    domainToRegionToAZLcuuids := map[];
    var i := 0;
    while i < |azs|
      invariant 0 <= i <= |azs|
      invariant AZIndexed(azs[..i], domainToAZLcuuids, domainToRegionToAZLcuuids)
    {
      var az := azs[i];
      AZIndexStep(azs[..i], az, domainToAZLcuuids, domainToRegionToAZLcuuids);
      assert azs[..i + 1] == azs[..i] + [az];
      var prev := if az.domain in domainToAZLcuuids then domainToAZLcuuids[az.domain] else [];
      domainToAZLcuuids := domainToAZLcuuids[az.domain := prev + [az.lcuuid]];
      if az.domain in domainToRegionToAZLcuuids {
        var regionToAZLcuuids := domainToRegionToAZLcuuids[az.domain];
        var prevAZs := if az.region in regionToAZLcuuids then regionToAZLcuuids[az.region] else [];
        domainToRegionToAZLcuuids := domainToRegionToAZLcuuids[az.domain := regionToAZLcuuids[az.region := prevAZs + [az.lcuuid]]];
      } else {
        domainToRegionToAZLcuuids := domainToRegionToAZLcuuids[az.domain := map[az.region := [az.lcuuid]]];
      }
      i := i + 1;
    }
    assert azs[..|azs|] == azs;
  }

  /** domainToSubDomainNames describes the sub-domain rows `sds`. */
  ghost predicate SubDomainsIndexed(sds: seq<SubDomainRow>, domainToSubDomainNames: map<string, seq<string>>)
  {
    (forall d :: d in domainToSubDomainNames <==> SubDomainNamesOf(sds, d) != []) &&
    (forall d :: d in domainToSubDomainNames ==> domainToSubDomainNames[d] == SubDomainNamesOf(sds, d))
  }

  /** One step of the sub-domain grouping loop keeps the map describing the rows seen so far. */
  lemma SubDomainIndexStep(sds: seq<SubDomainRow>, sd: SubDomainRow, m: map<string, seq<string>>)
    requires SubDomainsIndexed(sds, m)
    ensures SubDomainsIndexed(sds + [sd], m[sd.domain := (if sd.domain in m then m[sd.domain] else []) + [sd.name]])
  {
    var p := sds + [sd];
    assert p[..|p| - 1] == sds;
  }

  /** The grouping loop over the sub-domains of GetDomains. */
  method GroupSubDomainNames(sds: seq<SubDomainRow>) returns (domainToSubDomainNames: map<string, seq<string>>)
    ensures SubDomainsIndexed(sds, domainToSubDomainNames)
  {
    domainToSubDomainNames := map[];
    var i := 0;
    while i < |sds|
      invariant 0 <= i <= |sds|
      invariant SubDomainsIndexed(sds[..i], domainToSubDomainNames)
    {
      var sd := sds[i];
      SubDomainIndexStep(sds[..i], sd, domainToSubDomainNames);
      assert sds[..i + 1] == sds[..i] + [sd];
      var prev := if sd.domain in domainToSubDomainNames then domainToSubDomainNames[sd.domain] else [];
      domainToSubDomainNames := domainToSubDomainNames[sd.domain := prev + [sd.name]];
      i := i + 1;
    }
    assert sds[..|sds|] == sds;
  }

  /** The map of controller IPs to names of GetDomains. */
  method MapControllerNames(controllers: seq<ControllerRow>) returns (controllerIPToName: map<string, string>)
    ensures controllerIPToName == ControllerNames(controllers)
  {
    controllerIPToName := map[];
    var i := 0;
    while i < |controllers|
      invariant 0 <= i <= |controllers|
      invariant controllerIPToName == ControllerNames(controllers[..i])
    {
      assert controllers[..i + 1][..i] == controllers[..i];
      controllerIPToName := controllerIPToName[controllers[i].ip := controllers[i].name];
      i := i + 1;
    }
    assert controllers[..|controllers|] == controllers;
  }

  /** The body of the loop of GetDomains over the domain rows. */
  method DomainRespFrom(domain: DomainRow, azs: seq<AZRow>, sds: seq<SubDomainRow>,
                        clusters: seq<KubernetesClusterRow>, vtaps: seq<VTapRow>,
                        domainToAZLcuuids: map<string, seq<string>>,
                        domainToRegionToAZLcuuids: map<string, map<string, seq<string>>>,
                        controllerIPToName: map<string, string>, domainToSubDomainNames: map<string, seq<string>>)
    returns (resp: DomainResp)
    requires AZIndexed(azs, domainToAZLcuuids, domainToRegionToAZLcuuids)
    requires SubDomainsIndexed(sds, domainToSubDomainNames)
    ensures resp == DomainRespOf(domain, azs, controllerIPToName, sds, clusters, vtaps)
  {
    var regionCount := 0;
    if domain.lcuuid in domainToRegionToAZLcuuids {
      regionCount := |domainToRegionToAZLcuuids[domain.lcuuid]|;
      assert domainToRegionToAZLcuuids[domain.lcuuid].Keys == RegionsOf(azs, domain.lcuuid);
    } else {
      AZsEmptyNoRegions(azs, domain.lcuuid);
    }
    var azCount := 0;
    if domain.lcuuid in domainToAZLcuuids {
      azCount := |domainToAZLcuuids[domain.lcuuid]|;
    }
    var controllerName := "";
    if domain.controllerIP in controllerIPToName {
      controllerName := controllerIPToName[domain.controllerIP];
    }
    var k8sEnabled := 0;
    var podClusters: seq<string> := [];
    var vtapName, vtapCtrlIP, vtapCtrlMAC := "", "", "";
    if domain.domainType != KUBERNETES {
      k8sEnabled := 1;
      if domain.lcuuid in domainToSubDomainNames {
        podClusters := domainToSubDomainNames[domain.lcuuid];
      }
    } else {
      var cluster := FirstCluster(clusters, domain.clusterID);
      if cluster.Some? {
        var v := Split(cluster.value.value, '-');
        if |v| == 2 {
          var vtap := FirstVTap(vtaps, v[0], v[1]);
          if vtap.Some? {
            vtapName, vtapCtrlIP, vtapCtrlMAC := vtap.value.name, vtap.value.ctrlIP, vtap.value.ctrlMac;
          }
        }
      }
    }
    var config := MaskSecrets(domain.config);
    resp := DomainResp(domain.lcuuid, domain.name, domain.displayName, domain.clusterID, domain.domainType,
                       domain.iconID, domain.controllerIP, regionCount, azCount, controllerName, k8sEnabled,
                       podClusters, vtapName, vtapCtrlIP, vtapCtrlMAC, config);
  }

  /** Each row mapped by `f`, in order. */
  function MapRows<A, B>(rows: seq<A>, f: A -> B): seq<B>
  {
    if rows == [] then [] else MapRows(rows[..|rows| - 1], f) + [f(rows[|rows| - 1])]
  }

  /** The mapped rows are one per row, each the row's image. */
  lemma {:induction false} MapRowsAt<A, B>(rows: seq<A>, f: A -> B)
    ensures |MapRows(rows, f)| == |rows|
    ensures forall i :: 0 <= i < |rows| ==> MapRows(rows, f)[i] == f(rows[i])
  {
    if rows != [] {
      var init := rows[..|rows| - 1];
      MapRowsAt(init, f);
      forall i | 0 <= i < |init| ensures MapRows(rows, f)[i] == f(rows[i]) {
        assert rows[i] == init[i];
      }
    }
  }

  /** The response of a domain row over the given tables. */
  function RespOf(azs: seq<AZRow>, controllers: map<string, string>, sds: seq<SubDomainRow>,
                  clusters: seq<KubernetesClusterRow>, vtaps: seq<VTapRow>): DomainRow -> DomainResp
  {
    row => DomainRespOf(row, azs, controllers, sds, clusters, vtaps)
  }

  /**
   * GetDomains over the selected domain rows: each listed domain counts its
   * distinct regions and its AZs, names its controller and pod clusters (or,
   * for a Kubernetes domain, the agent that reported the cluster), and
   * shows every present secret as the default password.
   */
  method GetDomains(domains: seq<DomainRow>, azs: seq<AZRow>, controllers: seq<ControllerRow>, sds: seq<SubDomainRow>,
                    clusters: seq<KubernetesClusterRow>, vtaps: seq<VTapRow>)
    returns (resp: seq<DomainResp>)
    ensures |resp| == |domains|
    ensures forall i :: 0 <= i < |domains| ==>
      resp[i] == DomainRespOf(domains[i], azs, ControllerNames(controllers), sds, clusters, vtaps)
  {
    var domainToAZLcuuids, domainToRegionToAZLcuuids := GroupAZs(azs);
    var controllerIPToName := MapControllerNames(controllers);
    var domainToSubDomainNames := GroupSubDomainNames(sds);
    resp := [];
    var i := 0;
    while i < |domains|
      invariant 0 <= i <= |domains|
      invariant resp == MapRows(domains[..i], RespOf(azs, controllerIPToName, sds, clusters, vtaps))
    {
      var one := DomainRespFrom(domains[i], azs, sds, clusters, vtaps, domainToAZLcuuids, domainToRegionToAZLcuuids,
                                controllerIPToName, domainToSubDomainNames);
      assert domains[..i + 1][..i] == domains[..i];
      resp := resp + [one];
      i := i + 1;
    }
    assert domains[..i] == domains;
    MapRowsAt(domains, RespOf(azs, controllerIPToName, sds, clusters, vtaps));
  }

  /** A domain with no AZs has no regions. */
  lemma {:induction false} AZsEmptyNoRegions(azs: seq<AZRow>, d: string)
    requires AZsOf(azs, d) == []
    ensures RegionsOf(azs, d) == {}
  {
    if azs != [] {
      AZsEmptyNoRegions(azs[..|azs| - 1], d);
    }
  }

  /** A domain's region count never exceeds its AZ count. */
  lemma {:induction false} RegionCountAtMostAZCount(azs: seq<AZRow>, d: string)
    ensures |RegionsOf(azs, d)| <= |AZsOf(azs, d)|
  {
    if azs != [] {
      var init := azs[..|azs| - 1];
      var last := azs[|azs| - 1];
      RegionCountAtMostAZCount(init, d);
      if last.domain == d {
        var prev := RegionsOf(init, d);
        assert |prev + {last.region}| <= |prev| + 1 by {
          if last.region !in prev {
            assert |prev + {last.region}| == |prev| + 1;
          } else {
            assert prev + {last.region} == prev;
          }
        }
      }
    }
  }

  // ---------------------------------------------------------------- create

  /** The request of CreateDomain; a missing config is None. */
  datatype DomainCreate = DomainCreate(name: string, domainType: int, iconID: int, kubernetesClusterID: string,
                                       config: Option<Config>)

  /** The config's string entry, "" when absent; only a string may be given for it. */
  function ConfString(config: Config, key: string): string
    requires key in config ==> config[key].Str?
  {
    if key in config then config[key].s else ""
  }

  /** The first AZ/controller connection of the region, if any. */
  function FirstControllerIP(conns: seq<AZControllerConnection>, region: string): (r: Option<string>)
    ensures r.None? <==> forall i :: 0 <= i < |conns| ==> conns[i].region != region
    ensures r.Some? ==> exists i :: 0 <= i < |conns| && conns[i].region == region && conns[i].controllerIP == r.value
  {
    if conns == [] then None
    else if conns[0].region == region then Some(conns[0].controllerIP)
    else
      var r := FirstControllerIP(conns[1..], region);
      assert forall i :: 1 <= i < |conns| ==> conns[i] == conns[1..][i - 1];
      r
  }

  /** common.DEFAULT_REGION: the region of learned resources when none is known. */
  const DEFAULT_REGION: string := "ffffffff-ffff-ffff-ffff-ffffffffffff"
  /** common.CREATE_METHOD_LEARN: a resource learned from the cloud, not defined by a user. */
  const CREATE_METHOD_LEARN: int := 0

  datatype LearnedKind = LearnedAZ | LearnedVPC

  /** A row createKubernetesRelatedResources writes: an AZ or a VPC of the new domain. */
  datatype LearnedRow = LearnedRow(kind: LearnedKind, lcuuid: string, name: string, domain: string, region: string,
                                   createMethod: int)

  /**
   * createKubernetesRelatedResources: one AZ and one VPC, named after the
   * domain, in its region (DEFAULT_REGION when that is empty), both learned.
   */
  function KubernetesRelatedRows(domain: DomainRow, regionLcuuid: string, azLcuuid: string, vpcLcuuid: string)
    : seq<LearnedRow>
  {
    var region := if regionLcuuid == "" then DEFAULT_REGION else regionLcuuid;
    [LearnedRow(LearnedAZ, azLcuuid, domain.name, domain.lcuuid, region, CREATE_METHOD_LEARN),
     LearnedRow(LearnedVPC, vpcLcuuid, domain.name, domain.lcuuid, region, CREATE_METHOD_LEARN)]
  }

  /**
   * The tables CreateDomain reads and writes. The domain table is keyed by
   * lcuuid, its unique key.
   */
  datatype Tables = Tables(domains: map<string, DomainRow>, azs: seq<AZRow>, controllers: seq<ControllerRow>,
                           subDomains: seq<SubDomainRow>, regions: seq<RegionRow>, conns: seq<AZControllerConnection>,
                           clusters: seq<KubernetesClusterRow>, vtaps: seq<VTapRow>)

  /** A name already used by a domain or a sub-domain. */
  predicate NameTaken(name: string, db: Tables)
  {
    (exists k :: k in db.domains && db.domains[k].name == name) ||
    (exists i :: 0 <= i < |db.subDomains| && db.subDomains[i].name == name)
  }

  /** The AZ table row of a learned AZ. */
  function AZRowOf(l: LearnedRow): AZRow
  {
    AZRow(l.lcuuid, l.domain, l.region)
  }

  /**
   * What a successful CreateDomain leaves: the domain row it built, the AZ
   * and VPC rows it wrote, the tables afterwards and the response read back.
   */
  datatype Created = Created(row: DomainRow, learned: seq<LearnedRow>, db: Tables, resp: DomainResp)

  /**
   * The writes and the read-back of CreateDomain: a learned AZ joins the AZ
   * table when its insert succeeds (`azCreated`; a failure is only logged),
   * the domain row is inserted unless its lcuuid is already stored (INSERT
   * IGNORE), and the response is GetDomains of that lcuuid, the listing of
   * whatever row the table then holds under it.
   */
  function Commit(db: Tables, row: DomainRow, learned: seq<LearnedRow>, azCreated: bool): (r: Created)
    ensures r.row == row && r.learned == learned
    ensures row.lcuuid in db.domains ==> r.db.domains == db.domains
    ensures row.lcuuid !in db.domains ==> r.db.domains == db.domains[row.lcuuid := row]
    ensures r.db.azs == db.azs + (if learned != [] && azCreated then [AZRowOf(learned[0])] else [])
    ensures r.db == db.(domains := r.db.domains, azs := r.db.azs)
    ensures row.lcuuid in r.db.domains &&
      r.resp == DomainRespOf(r.db.domains[row.lcuuid], r.db.azs, ControllerNames(db.controllers),
                             db.subDomains, db.clusters, db.vtaps)
  {
    var azs := db.azs + (if learned != [] && azCreated then [AZRowOf(learned[0])] else []);
    var domains := if row.lcuuid in db.domains then db.domains else db.domains[row.lcuuid := row];
    var db2 := db.(domains := domains, azs := azs);
    Created(row, learned, db2,
            DomainRespOf(domains[row.lcuuid], azs, ControllerNames(db.controllers), db.subDomains, db.clusters, db.vtaps))
  }

  /**
   * The region and controller IP of a new domain: an empty region_uuid
   * needs exactly one region row and takes it; an empty controller_ip takes
   * the first controller connected to that region, and there must be one.
   */
  function Placement(config: Config, regions: seq<RegionRow>, conns: seq<AZControllerConnection>)
    : (r: Result<(string, string)>)
    requires "region_uuid" in config ==> config["region_uuid"].Str?
    requires "controller_ip" in config ==> config["controller_ip"].Str?
    ensures r.Err? ==> r.error == INVALID_PARAMETERS
    ensures ConfString(config, "region_uuid") == "" ==>
      (r.Ok? <==> |regions| == 1 &&
                  (ConfString(config, "controller_ip") != "" || FirstControllerIP(conns, regions[0].lcuuid).Some?))
    ensures r.Ok? && ConfString(config, "region_uuid") != "" ==> r.value.0 == ConfString(config, "region_uuid")
    ensures r.Ok? && ConfString(config, "region_uuid") == "" ==> r.value.0 == regions[0].lcuuid
    ensures r.Ok? && ConfString(config, "controller_ip") != "" ==> r.value.1 == ConfString(config, "controller_ip")
    ensures r.Ok? && ConfString(config, "controller_ip") == "" ==> FirstControllerIP(conns, r.value.0) == Some(r.value.1)
  {
    var confRegion := ConfString(config, "region_uuid");
    if confRegion == "" && |regions| != 1 then Err(INVALID_PARAMETERS)
    else
      var regionLcuuid := if confRegion == "" then regions[0].lcuuid else confRegion;
      var confControllerIP := ConfString(config, "controller_ip");
      var found := FirstControllerIP(conns, regionLcuuid);
      if confControllerIP == "" && found.None? then Err(INVALID_PARAMETERS)
      else Ok((regionLcuuid, if confControllerIP == "" then found.value else confControllerIP))
  }

  /**
   * The checks and rows of CreateDomain once the name is known to be free:
   * a nil config defaults to an empty region and controller, placed by
   * Placement, and NewDomain builds the domain row and its learned rows.
   */
  function Validated(req: DomainCreate, regions: seq<RegionRow>, conns: seq<AZControllerConnection>,
                     displayName: string, lcuuid: string, shortUUID: string,
                     getUUID: string -> string, vpcLcuuidOf: string -> string)
    : (r: Result<(DomainRow, seq<LearnedRow>)>)
    requires req.config.Some? ==> ("region_uuid" in req.config.value ==> req.config.value["region_uuid"].Str?)
    requires req.config.Some? ==> ("controller_ip" in req.config.value ==> req.config.value["controller_ip"].Str?)
    requires req.domainType == KUBERNETES ==> |getUUID(displayName)| >= 2
    ensures r.Err? ==> r.error == INVALID_PARAMETERS
    ensures r.Ok? ==> r.value.0.name == req.name && r.value.0.lcuuid == lcuuid && r.value.0.displayName == displayName
    ensures r.Ok? ==>
      "region_uuid" in r.value.0.config && r.value.0.config["region_uuid"].Str? &&
      "controller_ip" in r.value.0.config && r.value.0.config["controller_ip"] == Str(r.value.0.controllerIP)
    ensures (req.config.Some? && ConfString(req.config.value, "region_uuid") == "")
      ==> (r.Ok? <==>
            (|regions| == 1 &&
             (ConfString(req.config.value, "controller_ip") != "" ||
              FirstControllerIP(conns, regions[0].lcuuid).Some?)))
    ensures r.Ok? && req.domainType == KUBERNETES ==>
      r.value.0.clusterID == (if req.kubernetesClusterID != "" then req.kubernetesClusterID else "d-" + shortUUID)
    ensures r.Ok? && req.domainType != KUBERNETES ==> r.value.0.clusterID == "" && r.value.1 == []
    ensures r.Ok? && req.domainType == KUBERNETES ==>
      var rows := r.value.1;
      var region := r.value.0.config["region_uuid"].s;
      |rows| == 2 && rows[0].kind == LearnedAZ && rows[1].kind == LearnedVPC &&
      rows[0].lcuuid == CloudCommon.GetAZLcuuidFromUUIDGenerate(displayName, getUUID) &&
      rows[1].lcuuid == vpcLcuuidOf(displayName) &&
      forall k :: 0 <= k < 2 ==>
        rows[k].name == req.name && rows[k].domain == lcuuid && rows[k].createMethod == CREATE_METHOD_LEARN &&
        rows[k].region == (if region == "" then DEFAULT_REGION else region)
  {
    var config := if req.config.Some? then req.config.value else map["region_uuid" := Str(""), "controller_ip" := Str("")];
    match Placement(config, regions, conns)
    case Err(e) => Err(e)
    case Ok(p) => Ok(NewDomain(req, config, p.0, p.1, displayName, lcuuid, shortUUID, getUUID, vpcLcuuidOf))
  }

  /**
   * CreateDomain: the name must be free among domains and sub-domains; an
   * unspecified region needs exactly one region row, an unspecified
   * controller IP a controller connected to the region; a Kubernetes domain
   * takes the given cluster id or "d-" and a short uuid, and gets an AZ and
   * a VPC row written before the domain row. The display name and lcuuid
   * (uuids derived from the cluster id), the short uuid, the uuid generator
   * behind the AZ lcuuid, k8s.GetVPCLcuuidFromUUIDGenerate and whether the
   * AZ insert succeeds are given. The domain insert is ignored when the
   * lcuuid is already stored, and the response is read back by lcuuid.
   */
  function CreateDomain(req: DomainCreate, db: Tables, displayName: string, lcuuid: string, shortUUID: string,
                        getUUID: string -> string, vpcLcuuidOf: string -> string, azCreated: bool)
    : (r: Result<Created>)
    requires req.config.Some? ==> ("region_uuid" in req.config.value ==> req.config.value["region_uuid"].Str?)
    requires req.config.Some? ==> ("controller_ip" in req.config.value ==> req.config.value["controller_ip"].Str?)
    requires req.domainType == KUBERNETES ==> |getUUID(displayName)| >= 2
    ensures NameTaken(req.name, db) ==> r == Err(RESOURCE_ALREADY_EXIST)
    ensures r.Ok? ==> r.value.row.name == req.name && r.value.row.lcuuid == lcuuid && r.value.row.displayName == displayName
    ensures r.Ok? ==>
      "region_uuid" in r.value.row.config && r.value.row.config["region_uuid"].Str? &&
      "controller_ip" in r.value.row.config && r.value.row.config["controller_ip"] == Str(r.value.row.controllerIP)
    ensures (!NameTaken(req.name, db) && req.config.Some? && ConfString(req.config.value, "region_uuid") == "")
      ==> (r.Ok? <==>
            (|db.regions| == 1 &&
             (ConfString(req.config.value, "controller_ip") != "" ||
              FirstControllerIP(db.conns, db.regions[0].lcuuid).Some?)))
    ensures r.Ok? && req.domainType == KUBERNETES ==>
      r.value.row.clusterID == (if req.kubernetesClusterID != "" then req.kubernetesClusterID else "d-" + shortUUID)
    ensures r.Ok? && req.domainType != KUBERNETES ==> r.value.row.clusterID == "" && r.value.learned == []
    ensures r.Ok? && req.domainType == KUBERNETES ==>
      var rows := r.value.learned;
      var region := r.value.row.config["region_uuid"].s;
      |rows| == 2 && rows[0].kind == LearnedAZ && rows[1].kind == LearnedVPC &&
      rows[0].lcuuid == CloudCommon.GetAZLcuuidFromUUIDGenerate(displayName, getUUID) &&
      rows[1].lcuuid == vpcLcuuidOf(displayName) &&
      forall k :: 0 <= k < 2 ==>
        rows[k].name == req.name && rows[k].domain == lcuuid && rows[k].createMethod == CREATE_METHOD_LEARN &&
        rows[k].region == (if region == "" then DEFAULT_REGION else region)
    ensures r.Ok? ==> r.value == Commit(db, r.value.row, r.value.learned, azCreated)
  {
    if NameTaken(req.name, db) then Err(RESOURCE_ALREADY_EXIST)
    else
      match Validated(req, db.regions, db.conns, displayName, lcuuid, shortUUID, getUUID, vpcLcuuidOf)
      case Err(e) => Err(e)
      case Ok(built) => Ok(Commit(db, built.0, built.1, azCreated))
  }

  /**
   * The source's reading of an lcuuid clash: when a domain with the derived
   * lcuuid is already stored (a Kubernetes cluster id reused under a new
   * name passes the name check), the insert is ignored, the table keeps the
   * stored row, and the response is that row's listing, under its old name
   * and config.
   */
  lemma CreateExistingReturnsStored(req: DomainCreate, db: Tables, displayName: string, lcuuid: string,
                                    shortUUID: string, getUUID: string -> string, vpcLcuuidOf: string -> string,
                                    azCreated: bool)
    requires req.config.Some? ==> ("region_uuid" in req.config.value ==> req.config.value["region_uuid"].Str?)
    requires req.config.Some? ==> ("controller_ip" in req.config.value ==> req.config.value["controller_ip"].Str?)
    requires req.domainType == KUBERNETES ==> |getUUID(displayName)| >= 2
    requires lcuuid in db.domains
    ensures var r := CreateDomain(req, db, displayName, lcuuid, shortUUID, getUUID, vpcLcuuidOf, azCreated);
      r.Ok? ==> r.value.db.domains == db.domains &&
                r.value.resp.lcuuid == db.domains[lcuuid].lcuuid && r.value.resp.name == db.domains[lcuuid].name &&
                r.value.resp.clusterID == db.domains[lcuuid].clusterID &&
                r.value.resp.config == MaskConfig(db.domains[lcuuid].config)
  {
  }

  /**
   * A created domain whose lcuuid is new is listed as built from the
   * request, and a Kubernetes domain whose AZ insert succeeded counts that
   * AZ among its own.
   */
  lemma CreateNewListsRequest(req: DomainCreate, db: Tables, displayName: string, lcuuid: string,
                              shortUUID: string, getUUID: string -> string, vpcLcuuidOf: string -> string,
                              azCreated: bool)
    requires req.config.Some? ==> ("region_uuid" in req.config.value ==> req.config.value["region_uuid"].Str?)
    requires req.config.Some? ==> ("controller_ip" in req.config.value ==> req.config.value["controller_ip"].Str?)
    requires req.domainType == KUBERNETES ==> |getUUID(displayName)| >= 2
    requires lcuuid !in db.domains
    ensures var r := CreateDomain(req, db, displayName, lcuuid, shortUUID, getUUID, vpcLcuuidOf, azCreated);
      r.Ok? ==> r.value.db.domains == db.domains[lcuuid := r.value.row] &&
                r.value.resp.lcuuid == lcuuid && r.value.resp.name == req.name &&
                r.value.resp.displayName == displayName &&
                r.value.resp.controllerIP == r.value.row.controllerIP &&
                r.value.resp.config == MaskConfig(r.value.row.config) &&
                (req.domainType == KUBERNETES && azCreated ==>
                   r.value.resp.azCount == |AZsOf(db.azs, lcuuid)| + 1 && r.value.resp.k8sEnabled == 0)
  {
    var r := CreateDomain(req, db, displayName, lcuuid, shortUUID, getUUID, vpcLcuuidOf, azCreated);
    if r.Ok? && req.domainType == KUBERNETES && azCreated {
      var az := AZRowOf(r.value.learned[0]);
      assert r.value.db.azs == db.azs + [az];
      assert (db.azs + [az])[..|db.azs|] == db.azs;
      assert AZsOf(db.azs + [az], lcuuid) == AZsOf(db.azs, lcuuid) + [az.lcuuid];
    }
  }

  /**
   * The rows CreateDomain writes once the request is validated: the domain
   * row with the chosen region and controller IP written into its config,
   * and for a Kubernetes domain the AZ and VPC rows in that region.
   */
  function NewDomain(req: DomainCreate, config: Config, regionLcuuid: string, controllerIP: string,
                     displayName: string, lcuuid: string, shortUUID: string,
                     getUUID: string -> string, vpcLcuuidOf: string -> string)
    : (r: (DomainRow, seq<LearnedRow>))
    requires req.domainType == KUBERNETES ==> |getUUID(displayName)| >= 2
    ensures r.0.name == req.name && r.0.lcuuid == lcuuid && r.0.displayName == displayName
    ensures r.0.controllerIP == controllerIP
    ensures r.0.config.Keys == config.Keys + {"region_uuid", "controller_ip"}
    ensures r.0.config["region_uuid"] == Str(regionLcuuid) && r.0.config["controller_ip"] == Str(controllerIP)
    ensures req.domainType == KUBERNETES ==>
      r.0.clusterID == (if req.kubernetesClusterID != "" then req.kubernetesClusterID else "d-" + shortUUID)
    ensures req.domainType != KUBERNETES ==> r.0.clusterID == "" && r.1 == []
    ensures req.domainType == KUBERNETES ==>
      |r.1| == 2 && r.1[0].kind == LearnedAZ && r.1[1].kind == LearnedVPC &&
      r.1[0].lcuuid == CloudCommon.GetAZLcuuidFromUUIDGenerate(displayName, getUUID) &&
      r.1[1].lcuuid == vpcLcuuidOf(displayName) &&
      forall k :: 0 <= k < 2 ==>
        r.1[k].name == req.name && r.1[k].domain == lcuuid && r.1[k].createMethod == CREATE_METHOD_LEARN &&
        r.1[k].region == (if regionLcuuid == "" then DEFAULT_REGION else regionLcuuid)
  {
    var config2 := config["region_uuid" := Str(regionLcuuid)]["controller_ip" := Str(controllerIP)];
    var clusterID := if req.domainType != KUBERNETES then ""
      else if req.kubernetesClusterID != "" then req.kubernetesClusterID else "d-" + shortUUID;
    var domain := DomainRow(lcuuid, req.name, displayName, clusterID, req.domainType, req.iconID, controllerIP, config2);
    if req.domainType != KUBERNETES then (domain, [])
    else
      var azLcuuid := CloudCommon.GetAZLcuuidFromUUIDGenerate(displayName, getUUID);
      (domain, KubernetesRelatedRows(domain, regionLcuuid, azLcuuid, vpcLcuuidOf(displayName)))
  }

  // ---------------------------------------------------------------- update

  /** The keys of an update request; a missing or nil CONFIG is None. */
  datatype DomainUpdate = DomainUpdate(name: Option<Value>, enabled: Option<Value>, iconID: Option<Value>,
                                       controllerIP: Option<Value>, config: Option<Config>)

  /** A column value written by UpdateDomain: a scalar, or the config as JSON. */
  datatype Column = Scalar(v: Value) | ConfigJSON(c: Config)

  /** Whether the incoming config changes the region, which purges the domain's soft-deleted resources. */
  predicate RegionChanged(stored: Config, update: Config)
  {
    "region_uuid" in update && update["region_uuid"] != Lookup(stored, "region_uuid")
  }

  /** The columns written from the top-level keys of the request. */
  function BaseColumns(u: DomainUpdate): map<string, Column>
  {
    var m0: map<string, Column> := map[];
    var m1 := if u.name.Some? then m0["name" := Scalar(u.name.value)] else m0;
    var m2 := if u.enabled.Some? then m1["enabled" := Scalar(u.enabled.value)] else m1;
    var m3 := if u.iconID.Some? then m2["icon_id" := Scalar(u.iconID.value)] else m2;
    if u.controllerIP.Some? then m3["controller_ip" := Scalar(u.controllerIP.value)] else m3
  }

  /** The columns UpdateDomain writes. */
  function UpdateColumns(row: DomainRow, u: DomainUpdate): map<string, Column>
  {
    var base := BaseColumns(u);
    if u.config.None? then base
    else
      var c := RestoreSecrets(row.config, u.config.value);
      var withIP := if "controller_ip" in c && c["controller_ip"] != Str(row.controllerIP)
        then base["controller_ip" := Scalar(c["controller_ip"])] else base;
      withIP["config" := ConfigJSON(c)]
  }

  /**
   * The stored row after the columns are written. A scalar of the wrong
   * kind for its column is not applied, and the enabled flag is not a
   * column of this model's rows.
   */
  function ApplyColumns(row: DomainRow, cols: map<string, Column>): DomainRow
  {
    row.(name := if "name" in cols && cols["name"].Scalar? && cols["name"].v.Str? then cols["name"].v.s else row.name,
         iconID := if "icon_id" in cols && cols["icon_id"].Scalar? && cols["icon_id"].v.Num? then cols["icon_id"].v.n
                   else row.iconID,
         controllerIP := if "controller_ip" in cols && cols["controller_ip"].Scalar? && cols["controller_ip"].v.Str?
                         then cols["controller_ip"].v.s else row.controllerIP,
         config := if "config" in cols && cols["config"].ConfigJSON? then cols["config"].c else row.config)
  }

  /**
   * The update map of UpdateDomain for the stored row: the given scalar
   * keys, and with a config its restored form, a differing controller_ip
   * and whether region_uuid changes.
   */
  method BuildUpdate(domain: DomainRow, u: DomainUpdate) returns (dbUpdateMap: map<string, Column>, purge: bool)
    ensures dbUpdateMap == UpdateColumns(domain, u)
    ensures purge <==> u.config.Some? && RegionChanged(domain.config, u.config.value)
  {
    dbUpdateMap := map[];
    if u.name.Some? {
      dbUpdateMap := dbUpdateMap["name" := Scalar(u.name.value)];
    }
    if u.enabled.Some? {
      dbUpdateMap := dbUpdateMap["enabled" := Scalar(u.enabled.value)];
    }
    if u.iconID.Some? {
      dbUpdateMap := dbUpdateMap["icon_id" := Scalar(u.iconID.value)];
    }
    if u.controllerIP.Some? {
      dbUpdateMap := dbUpdateMap["controller_ip" := Scalar(u.controllerIP.value)];
    }
    assert dbUpdateMap == BaseColumns(u);
    purge := false;
    if u.config.Some? {
      var config := domain.config;
      var configUpdate := RestoreMaskedSecrets(config, u.config.value);
      if "controller_ip" in configUpdate && configUpdate["controller_ip"] != Str(domain.controllerIP) {
        dbUpdateMap := dbUpdateMap["controller_ip" := Scalar(configUpdate["controller_ip"])];
      }
      if "region_uuid" in configUpdate && configUpdate["region_uuid"] != Lookup(config, "region_uuid") {
        purge := true;
      }
      dbUpdateMap := dbUpdateMap["config" := ConfigJSON(configUpdate)];
    }
  }

  /** What a successful UpdateDomain leaves: the columns written, the purge, the tables afterwards, the response. */
  datatype Updated = Updated(columns: map<string, Column>, purge: bool, db: Tables, resp: DomainResp)

  /**
   * UpdateDomain: an unknown lcuuid fails with RESOURCE_NOT_FOUND; otherwise
   * the columns to write and whether the soft-deleted resources are purged;
   * the columns are written to the stored row, and the response is the
   * domain re-listed by GetDomains.
   */
  method UpdateDomain(db: Tables, lcuuid: string, u: DomainUpdate) returns (r: Result<Updated>)
    ensures lcuuid !in db.domains <==> r == Err(RESOURCE_NOT_FOUND)
    ensures r.Ok? ==> r.value.columns == UpdateColumns(db.domains[lcuuid], u)
    ensures r.Ok? ==> (r.value.purge <==> u.config.Some? && RegionChanged(db.domains[lcuuid].config, u.config.value))
    ensures r.Ok? ==>
      r.value.db == db.(domains := db.domains[lcuuid := ApplyColumns(db.domains[lcuuid], r.value.columns)])
    ensures r.Ok? ==>
      r.value.resp == DomainRespOf(r.value.db.domains[lcuuid], db.azs, ControllerNames(db.controllers),
                                   db.subDomains, db.clusters, db.vtaps)
  {
    if lcuuid !in db.domains {
      return Err(RESOURCE_NOT_FOUND);
    }
    var domain := db.domains[lcuuid];
    var dbUpdateMap, purge := BuildUpdate(domain, u);
    var row := ApplyColumns(domain, dbUpdateMap);
    var db2 := db.(domains := db.domains[lcuuid := row]);
    var listed := GetDomains([row], db.azs, db.controllers, db.subDomains, db.clusters, db.vtaps);
    return Ok(Updated(dbUpdateMap, purge, db2, listed[0]));
  }

  /**
   * What an update does to the stored row: the identity columns stay, a
   * string name and a numeric icon id replace the old ones, and a new config
   * replaces the old one with its masked secrets restored.
   */
  lemma UpdatedRowFields(row: DomainRow, u: DomainUpdate)
    ensures var n := ApplyColumns(row, UpdateColumns(row, u));
      n.lcuuid == row.lcuuid && n.displayName == row.displayName && n.clusterID == row.clusterID &&
      n.domainType == row.domainType &&
      (u.name.None? ==> n.name == row.name) &&
      (u.name.Some? && u.name.value.Str? ==> n.name == u.name.value.s) &&
      (u.iconID.None? ==> n.iconID == row.iconID) &&
      (u.iconID.Some? && u.iconID.value.Num? ==> n.iconID == u.iconID.value.n) &&
      (u.config.None? ==> n.config == row.config) &&
      (u.config.Some? ==> n.config == RestoreSecrets(row.config, u.config.value))
  {
    BaseColumnsKeys(u);
  }

  /** Whether an update's config carries a controller_ip other than the stored one. */
  predicate ConfigMovesController(row: DomainRow, u: DomainUpdate)
  {
    u.config.Some? && "controller_ip" in RestoreSecrets(row.config, u.config.value) &&
    RestoreSecrets(row.config, u.config.value)["controller_ip"] != Str(row.controllerIP)
  }

  /**
   * The controller IP after an update: a differing controller_ip in the
   * config wins over the CONTROLLER_IP key; without either the IP stays.
   */
  lemma UpdatedControllerIP(row: DomainRow, u: DomainUpdate)
    ensures var n := ApplyColumns(row, UpdateColumns(row, u));
      var c := if u.config.Some? then RestoreSecrets(row.config, u.config.value) else map[];
      (ConfigMovesController(row, u) && c["controller_ip"].Str? ==> n.controllerIP == c["controller_ip"].s) &&
      (!ConfigMovesController(row, u) && u.controllerIP.Some? && u.controllerIP.value.Str? ==>
         n.controllerIP == u.controllerIP.value.s) &&
      (!ConfigMovesController(row, u) && u.controllerIP.None? ==> n.controllerIP == row.controllerIP)
  {
    BaseColumnsKeys(u);
  }

  /**
   * Saving a listed domain back with only its masked config leaves the
   * stored row as it was, when the config's controller_ip is the row's.
   */
  lemma UnchangedSaveKeepsRow(row: DomainRow)
    requires "controller_ip" in row.config ==> row.config["controller_ip"] == Str(row.controllerIP)
    ensures ApplyColumns(row, UpdateColumns(row, DomainUpdate(None, None, None, None, Some(MaskConfig(row.config))))) == row
  {
    var u := DomainUpdate(None, None, None, None, Some(MaskConfig(row.config)));
    MaskRestoreRoundTrip(row.config);
    UpdatedRowFields(row, u);
    UpdatedControllerIP(row, u);
  }

  /** The keys and values of the scalar columns. */
  lemma BaseColumnsKeys(u: DomainUpdate)
    ensures var base := BaseColumns(u);
      ("name" in base <==> u.name.Some?) && ("icon_id" in base <==> u.iconID.Some?) &&
      ("controller_ip" in base <==> u.controllerIP.Some?) && "config" !in base &&
      (u.name.Some? ==> base["name"] == Scalar(u.name.value)) &&
      (u.iconID.Some? ==> base["icon_id"] == Scalar(u.iconID.value)) &&
      (u.controllerIP.Some? ==> base["controller_ip"] == Scalar(u.controllerIP.value))
  {
  }

  /**
   * Saving a listed domain's config unchanged writes back exactly the stored
   * config (secrets included) and purges nothing.
   */
  lemma UnchangedConfigSaveIsIdentity(row: DomainRow, u: DomainUpdate)
    requires u.config == Some(MaskConfig(row.config))
    ensures "config" in UpdateColumns(row, u) && UpdateColumns(row, u)["config"] == ConfigJSON(row.config)
    ensures !RegionChanged(row.config, RestoreSecrets(row.config, u.config.value))
  {
    MaskRestoreRoundTrip(row.config);
  }
}
