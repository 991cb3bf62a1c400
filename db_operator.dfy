/**
 * The recorder's per-type database operators for regions, networks and pod
 * ingresses: a static configuration (resource type name, soft-delete flag,
 * the operator as its own ID setter) and the setter that stamps the
 * store-assigned surrogate id on a row.
 *
 * The generic operator base is modelled only as far as the soft-delete flag
 * decides it: a soft delete tombstones a row, a hard delete removes it.
 */
module DbOperator {
  import opened Wrappers

  const RESOURCE_TYPE_REGION_EN: string := "region"
  const RESOURCE_TYPE_NETWORK_EN: string := "network"
  const RESOURCE_TYPE_POD_INGRESS_EN: string := "pod_ingress"

  /** The static configuration of an operator. */
  datatype Operator = Operator(resourceTypeName: string, softDelete: bool, setterIsSelf: bool)

  datatype RegionRow = RegionRow(id: int, lcuuid: string, name: string, displayLabel: string, deletedAt: Option<int>)

  datatype NetworkRow = NetworkRow(id: int, lcuuid: string, name: string, segmentationID: int, vpcID: int,
                                   domain: string, subDomain: string, deletedAt: Option<int>)

  datatype PodIngressRow = PodIngressRow(id: int, lcuuid: string, name: string, podNamespaceID: int,
                                         podClusterID: int, domain: string, subDomain: string, deletedAt: Option<int>)

  /** NewRegion: regions are soft-deleted; the operator sets ids itself. */
  function NewRegion(): (op: Operator)
    ensures op.resourceTypeName == RESOURCE_TYPE_REGION_EN && op.softDelete && op.setterIsSelf
  {
    Operator(RESOURCE_TYPE_REGION_EN, true, true)
  }

  /** NewNetwork: networks are soft-deleted; the operator sets ids itself. */
  function NewNetwork(): (op: Operator)
    ensures op.resourceTypeName == RESOURCE_TYPE_NETWORK_EN && op.softDelete && op.setterIsSelf
  {
    Operator(RESOURCE_TYPE_NETWORK_EN, true, true)
  }

  /** NewPodIngress: pod ingresses are soft-deleted; the operator sets ids itself. */
  function NewPodIngress(): (op: Operator)
    ensures op.resourceTypeName == RESOURCE_TYPE_POD_INGRESS_EN && op.softDelete && op.setterIsSelf
  {
    Operator(RESOURCE_TYPE_POD_INGRESS_EN, true, true)
  }

  /** Region.setDBItemID: the row gets the id and no other field changes. */
  function SetRegionID(row: RegionRow, id: int): (r: RegionRow)
    ensures r.id == id && r.(id := row.id) == row
  {
    row.(id := id)
  }

  /** Network.setDBItemID: the row gets the id and no other field changes. */
  function SetNetworkID(row: NetworkRow, id: int): (r: NetworkRow)
    ensures r.id == id && r.(id := row.id) == row
  {
    row.(id := id)
  }

  /** PodIngress.setDBItemID: the row gets the id and no other field changes. */
  function SetPodIngressID(row: PodIngressRow, id: int): (r: PodIngressRow)
    ensures r.id == id && r.(id := row.id) == row
  {
    row.(id := id)
  }

  /** Setting an id twice keeps the second; setting a row's own id changes nothing. */
  lemma SetIDLastWins(region: RegionRow, network: NetworkRow, ingress: PodIngressRow, a: int, b: int)
    ensures SetRegionID(SetRegionID(region, a), b) == SetRegionID(region, b)
    ensures SetNetworkID(SetNetworkID(network, a), b) == SetNetworkID(network, b)
    ensures SetPodIngressID(SetPodIngressID(ingress, a), b) == SetPodIngressID(ingress, b)
    ensures SetRegionID(region, region.id) == region
    ensures SetNetworkID(network, network.id) == network
    ensures SetPodIngressID(ingress, ingress.id) == ingress
  {
    var r1 := SetRegionID(region, a);
    var r2 := SetRegionID(r1, b);
    assert r2.(id := r1.id) == r1;
    var n1 := SetNetworkID(network, a);
    var n2 := SetNetworkID(n1, b);
    assert n2.(id := n1.id) == n1;
    var p1 := SetPodIngressID(ingress, a);
    var p2 := SetPodIngressID(p1, b);
    assert p2.(id := p1.id) == p1;
  }

  /** The delete of the operator base on a region table keyed by lcuuid. */
  function DeleteRegions(op: Operator, table: map<string, RegionRow>, lcuuids: set<string>, now: int): (t: map<string, RegionRow>)
    ensures op.softDelete ==> t.Keys == table.Keys
    ensures !op.softDelete ==> t.Keys == table.Keys - lcuuids
    ensures forall k :: k in t && k !in lcuuids ==> t[k] == table[k]
    ensures forall k :: k in t && k in lcuuids ==> t[k] == table[k].(deletedAt := Some(now))
  {
    if op.softDelete then
      map k | k in table :: if k in lcuuids then table[k].(deletedAt := Some(now)) else table[k]
    else
      map k | k in table && k !in lcuuids :: table[k]
  }

  /** The delete of the operator base on a network table keyed by lcuuid. */
  function DeleteNetworks(op: Operator, table: map<string, NetworkRow>, lcuuids: set<string>, now: int): (t: map<string, NetworkRow>)
    ensures op.softDelete ==> t.Keys == table.Keys
    ensures !op.softDelete ==> t.Keys == table.Keys - lcuuids
    ensures forall k :: k in t && k !in lcuuids ==> t[k] == table[k]
    ensures forall k :: k in t && k in lcuuids ==> t[k] == table[k].(deletedAt := Some(now))
  {
    if op.softDelete then
      map k | k in table :: if k in lcuuids then table[k].(deletedAt := Some(now)) else table[k]
    else
      map k | k in table && k !in lcuuids :: table[k]
  }

  /** The delete of the operator base on a pod ingress table keyed by lcuuid. */
  function DeletePodIngresses(op: Operator, table: map<string, PodIngressRow>, lcuuids: set<string>, now: int): (t: map<string, PodIngressRow>)
    ensures op.softDelete ==> t.Keys == table.Keys
    ensures !op.softDelete ==> t.Keys == table.Keys - lcuuids
    ensures forall k :: k in t && k !in lcuuids ==> t[k] == table[k]
    ensures forall k :: k in t && k in lcuuids ==> t[k] == table[k].(deletedAt := Some(now))
  {
    if op.softDelete then
      map k | k in table :: if k in lcuuids then table[k].(deletedAt := Some(now)) else table[k]
    else
      map k | k in table && k !in lcuuids :: table[k]
  }

  /**
   * Regions, networks and pod ingresses are recoverable: a deleted row stays
   * in its table with a tombstone, and clearing the tombstone restores it.
   */
  lemma DeletedRowsRecoverable(regions: map<string, RegionRow>, networks: map<string, NetworkRow>,
                               ingresses: map<string, PodIngressRow>, lcuuids: set<string>, now: int)
    ensures var t := DeleteRegions(NewRegion(), regions, lcuuids, now);
      t.Keys == regions.Keys &&
      forall k :: k in regions && regions[k].deletedAt.None? ==> t[k].(deletedAt := None) == regions[k]
    ensures var t := DeleteNetworks(NewNetwork(), networks, lcuuids, now);
      t.Keys == networks.Keys &&
      forall k :: k in networks && networks[k].deletedAt.None? ==> t[k].(deletedAt := None) == networks[k]
    ensures var t := DeletePodIngresses(NewPodIngress(), ingresses, lcuuids, now);
      t.Keys == ingresses.Keys &&
      forall k :: k in ingresses && ingresses[k].deletedAt.None? ==> t[k].(deletedAt := None) == ingresses[k]
  {
  }
}
