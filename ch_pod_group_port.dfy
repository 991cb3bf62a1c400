/**
 * The tag recorder of the ClickHouse dictionary ch_pod_group_port: one row
 * per (pod group, protocol number, port), naming the pod service that
 * exposes the port. The rows are generated from the pod_service and
 * pod_group_port tables, keyed, and diffed against the stored rows.
 */
module ChPodGroupPort {
  import opened Wrappers

  datatype PodService = PodService(id: int, name: string)

  datatype PodGroupPort = PodGroupPort(podGroupID: int, protocol: string, port: int, podServiceID: int)

  datatype PortIDKey = PortIDKey(id: int, protocol: int, port: int)

  datatype ChRow = ChRow(id: int, protocol: int, port: int, portPodServiceID: int, portPodServiceName: string)

  /** A value written by an update: the two updatable columns are an int and a string. */
  datatype FieldValue = IntValue(i: int) | StrValue(s: string)

  /** common.ProtocolMap[p] with Go's zero value for an unknown protocol name. */
  function ProtocolNumber(protocolMap: map<string, int>, p: string): int
  {
    if p in protocolMap then protocolMap[p] else 0
  }

  /** serviceIDToName after the loop over the pod services (a later service with the same id wins). */
  function ServiceNames(services: seq<PodService>): map<int, string>
  {
    if services == [] then map[]
    else
      var last := services[|services| - 1];
      ServiceNames(services[..|services| - 1])[last.id := last.name]
  }

  /** serviceIDToName[id] with Go's zero value "" for a missing id. */
  function ServiceName(names: map<int, string>, id: int): string
  {
    if id in names then names[id] else ""
  }

  /** The rows that take part: a non-zero port, pod group and protocol number. */
  predicate Emitted(protocolMap: map<string, int>, p: PodGroupPort)
  {
    p.port != 0 && p.podGroupID != 0 && ProtocolNumber(protocolMap, p.protocol) != 0
  }

  function KeyOf(protocolMap: map<string, int>, p: PodGroupPort): PortIDKey
  {
    PortIDKey(p.podGroupID, ProtocolNumber(protocolMap, p.protocol), p.port)
  }

  function RowOf(protocolMap: map<string, int>, names: map<int, string>, p: PodGroupPort): ChRow
  {
    ChRow(p.podGroupID, ProtocolNumber(protocolMap, p.protocol), p.port, p.podServiceID, ServiceName(names, p.podServiceID))
  }

  /** keyToItem after the loop over the pod group ports. */
  function KeyToItem(protocolMap: map<string, int>, names: map<int, string>, ports: seq<PodGroupPort>): map<PortIDKey, ChRow>
  {
    if ports == [] then map[]
    else
      var last := ports[|ports| - 1];
      var m := KeyToItem(protocolMap, names, ports[..|ports| - 1]);
      if Emitted(protocolMap, last) then m[KeyOf(protocolMap, last) := RowOf(protocolMap, names, last)] else m
  }

  /** generateKey: the key of a stored row. */
  function GenerateKey(row: ChRow): (k: PortIDKey)
    ensures k.id == row.id && k.protocol == row.protocol && k.port == row.port
  {
    PortIDKey(row.id, row.protocol, row.port)
  }

  /** The service name map holds exactly the ids of the services, each with the name of its last service. */
  lemma {:induction false} ServiceNamesLookup(services: seq<PodService>)
    ensures forall id :: id in ServiceNames(services) <==> exists i :: 0 <= i < |services| && services[i].id == id
    ensures forall i :: 0 <= i < |services| && (forall j :: i < j < |services| ==> services[j].id != services[i].id) ==>
      ServiceNames(services)[services[i].id] == services[i].name
  {
    if services != [] {
      var init := services[..|services| - 1];
      ServiceNamesLookup(init);
      forall id | id in ServiceNames(services) ensures exists i :: 0 <= i < |services| && services[i].id == id {
        if id != services[|services| - 1].id {
          assert id in ServiceNames(init);
          var i :| 0 <= i < |init| && init[i].id == id;
          assert services[i].id == id;
        }
      }
      forall id | (exists i :: 0 <= i < |services| && services[i].id == id) ensures id in ServiceNames(services) {
        var i :| 0 <= i < |services| && services[i].id == id;
        if i < |init| {
          assert init[i].id == id;
        }
      }
      forall i | 0 <= i < |services| && (forall j :: i < j < |services| ==> services[j].id != services[i].id)
        ensures ServiceNames(services)[services[i].id] == services[i].name
      {
        if i < |init| {
          assert init[i] == services[i];
        }
      }
    }
  }

  /** A key is in the generated data iff some emitted pod group port has it. */
  lemma {:induction false} KeyToItemKeys(protocolMap: map<string, int>, names: map<int, string>, ports: seq<PodGroupPort>)
    ensures forall k :: k in KeyToItem(protocolMap, names, ports) <==>
      exists i :: 0 <= i < |ports| && Emitted(protocolMap, ports[i]) && KeyOf(protocolMap, ports[i]) == k
  {
    if ports != [] {
      var init := ports[..|ports| - 1];
      var last := ports[|ports| - 1];
      KeyToItemKeys(protocolMap, names, init);
      var m := KeyToItem(protocolMap, names, ports);
      forall k | k in m
        ensures exists i :: 0 <= i < |ports| && Emitted(protocolMap, ports[i]) && KeyOf(protocolMap, ports[i]) == k
      {
        if !(Emitted(protocolMap, last) && KeyOf(protocolMap, last) == k) {
          assert k in KeyToItem(protocolMap, names, init);
          var i :| 0 <= i < |init| && Emitted(protocolMap, init[i]) && KeyOf(protocolMap, init[i]) == k;
          assert ports[i] == init[i];
        }
      }
      forall k | exists i :: 0 <= i < |ports| && Emitted(protocolMap, ports[i]) && KeyOf(protocolMap, ports[i]) == k
        ensures k in m
      {
        var i :| 0 <= i < |ports| && Emitted(protocolMap, ports[i]) && KeyOf(protocolMap, ports[i]) == k;
        if i < |init| {
          assert init[i] == ports[i];
          assert k in KeyToItem(protocolMap, names, init);
        }
      }
    }
  }

  /** Every generated row is stored under its own key, so generateKey gives back that key. */
  lemma {:induction false} KeyToItemGenerateKey(protocolMap: map<string, int>, names: map<int, string>, ports: seq<PodGroupPort>)
    ensures var m := KeyToItem(protocolMap, names, ports);
      forall k :: k in m ==> GenerateKey(m[k]) == k
  {
    if ports != [] {
      var init := ports[..|ports| - 1];
      var last := ports[|ports| - 1];
      KeyToItemGenerateKey(protocolMap, names, init);
      var m := KeyToItem(protocolMap, names, ports);
      forall k | k in m ensures GenerateKey(m[k]) == k {
        if !(Emitted(protocolMap, last) && k == KeyOf(protocolMap, last)) {
          assert m[k] == KeyToItem(protocolMap, names, init)[k];
        }
      }
    }
  }

  /** The row stored under a key is built from the last emitted pod group port with that key. */
  lemma {:induction false} KeyToItemLastWins(protocolMap: map<string, int>, names: map<int, string>, ports: seq<PodGroupPort>)
    ensures var m := KeyToItem(protocolMap, names, ports);
      forall i ::
        (0 <= i < |ports| && Emitted(protocolMap, ports[i]) &&
         (forall j :: i < j < |ports| && Emitted(protocolMap, ports[j]) ==>
            KeyOf(protocolMap, ports[j]) != KeyOf(protocolMap, ports[i])))
        ==> (KeyOf(protocolMap, ports[i]) in m && m[KeyOf(protocolMap, ports[i])] == RowOf(protocolMap, names, ports[i]))
  {
    if ports != [] {
      var init := ports[..|ports| - 1];
      KeyToItemLastWins(protocolMap, names, init);
      var m := KeyToItem(protocolMap, names, ports);
      forall i | 0 <= i < |ports| && Emitted(protocolMap, ports[i]) &&
        (forall j :: i < j < |ports| && Emitted(protocolMap, ports[j]) ==>
           KeyOf(protocolMap, ports[j]) != KeyOf(protocolMap, ports[i]))
        ensures KeyOf(protocolMap, ports[i]) in m && m[KeyOf(protocolMap, ports[i])] == RowOf(protocolMap, names, ports[i])
      {
        if i < |init| {
          assert init[i] == ports[i];
        }
      }
    }
  }

  /**
   * generateNewData: a failed read of either table yields no data and false;
   * otherwise the keyed rows, each naming its pod service ("" when unknown).
   */
  method GenerateNewData(protocolMap: map<string, int>, podServices: Result<seq<PodService>>,
                         podGroupPorts: Result<seq<PodGroupPort>>)
    returns (data: map<PortIDKey, ChRow>, ok: bool)
    ensures ok <==> podServices.Ok? && podGroupPorts.Ok?
    ensures !ok ==> data == map[]
    ensures ok ==> data == KeyToItem(protocolMap, ServiceNames(podServices.value), podGroupPorts.value)
  {
    if podServices.Err? || podGroupPorts.Err? {
      return map[], false;
    }
    var services := podServices.value;
    var ports := podGroupPorts.value;

    var serviceIDToName: map<int, string> := map[];
    var i := 0;
    while i < |services|
      invariant 0 <= i <= |services|
      invariant serviceIDToName == ServiceNames(services[..i])
    {
      assert services[..i + 1][..i] == services[..i];
      serviceIDToName := serviceIDToName[services[i].id := services[i].name];
      i := i + 1;
    }
    assert services[..|services|] == services;

    data := map[];
    var j := 0;
    while j < |ports|
      invariant 0 <= j <= |ports|
      invariant data == KeyToItem(protocolMap, serviceIDToName, ports[..j])
    {
      assert ports[..j + 1][..j] == ports[..j];
      var p := ports[j];
      var protocol := ProtocolNumber(protocolMap, p.protocol);
      if !(p.port == 0 || p.podGroupID == 0 || protocol == 0) {
        var key := PortIDKey(p.podGroupID, protocol, p.port);
        data := data[key := ChRow(p.podGroupID, protocol, p.port, p.podServiceID, ServiceName(serviceIDToName, p.podServiceID))];
      }
      j := j + 1;
    }
    assert ports[..|ports|] == ports;
    ok := true;
  }

  /**
   * generateUpdateInfo: exactly the changed columns among the pod service id
   * and name, with their new values; no info and false when neither changed.
   */
  function GenerateUpdateInfo(oldItem: ChRow, newItem: ChRow): (r: (map<string, FieldValue>, bool))
    ensures r.1 <==> oldItem.portPodServiceID != newItem.portPodServiceID || oldItem.portPodServiceName != newItem.portPodServiceName
    ensures "port_pod_service_id" in r.0 <==> oldItem.portPodServiceID != newItem.portPodServiceID
    ensures "port_pod_service_name" in r.0 <==> oldItem.portPodServiceName != newItem.portPodServiceName
    ensures r.0.Keys <= {"port_pod_service_id", "port_pod_service_name"}
  {
    var info1: map<string, FieldValue> := if oldItem.portPodServiceID != newItem.portPodServiceID
      then map["port_pod_service_id" := IntValue(newItem.portPodServiceID)] else map[];
    var info2 := if oldItem.portPodServiceName != newItem.portPodServiceName
      then info1["port_pod_service_name" := StrValue(newItem.portPodServiceName)] else info1;
    if |info2| > 0 then (info2, true) else (map[], false)
  }

  /** The stored row after the update columns are written. */
  function ApplyUpdate(row: ChRow, info: map<string, FieldValue>): ChRow
  {
    var r1 := if "port_pod_service_id" in info && info["port_pod_service_id"].IntValue?
      then row.(portPodServiceID := info["port_pod_service_id"].i) else row;
    if "port_pod_service_name" in info && info["port_pod_service_name"].StrValue?
      then r1.(portPodServiceName := info["port_pod_service_name"].s) else r1
  }

  /** Applying the update info to the old row of the same key gives the new row. */
  lemma UpdateInfoRoundTrip(oldItem: ChRow, newItem: ChRow)
    requires GenerateKey(oldItem) == GenerateKey(newItem)
    ensures ApplyUpdate(oldItem, GenerateUpdateInfo(oldItem, newItem).0) == newItem
  {
    var info := GenerateUpdateInfo(oldItem, newItem).0;
    if oldItem.portPodServiceID != newItem.portPodServiceID {
      assert info["port_pod_service_id"] == IntValue(newItem.portPodServiceID);
    }
    if oldItem.portPodServiceName != newItem.portPodServiceName {
      assert info["port_pod_service_name"] == StrValue(newItem.portPodServiceName);
    }
  }
}
