/**
 * The recorder of one cloud domain: a single-slot refresh gate, the snapshot
 * check, the ordered add/update and reverse-ordered delete passes over the
 * typed updaters (for the domain and for each verified sub-domain), and the
 * aggregated domain status written back to the domain row.
 *
 * The updaters themselves are recorded as calls in a trace; what each one
 * writes to the cache and database is modelled in the updater modules.
 */
module Recorder {
  import opened Wrappers
  import Text

  datatype UpdaterKind =
    | Region | AZ | SubDomain | VPC | Host | VM
    | PodCluster | PodNode | PodNamespace | PodIngress | PodIngressRule | PodService
    | PodIngressRuleBackend | PodServicePort | PodGroup | PodGroupPort | PodReplicaSet | Pod
    | Network | Subnet | VRouter | RoutingTable | DHCPPort
    | SecurityGroup | SecurityGroupRule | VMSecurityGroup
    | NATGateway | NATVMConnection | NATRule
    | LB | LBVMConnection | LBListener | LBTargetServer
    | RDSInstance | RedisInstance | PeerConnection | CEN
    | VInterface | FloatingIP | IP | VMPodNodeConnection

  /** The Kubernetes updaters, shared by the domain and sub-domain lists. */
  function PodUpdaters(): seq<UpdaterKind>
  {
    [PodCluster, PodNode, PodNamespace, PodIngress, PodIngressRule, PodService,
     PodIngressRuleBackend, PodServicePort, PodGroup, PodGroupPort, PodReplicaSet, Pod]
  }

  function DomainHeadUpdaters(): seq<UpdaterKind>
  {
    [Region, AZ, SubDomain, VPC, Host, VM]
  }

  function DomainNetworkUpdaters(): seq<UpdaterKind>
  {
    [Network, Subnet, VRouter, RoutingTable, DHCPPort,
     SecurityGroup, SecurityGroupRule, VMSecurityGroup,
     NATGateway, NATVMConnection, NATRule,
     LB, LBVMConnection, LBListener, LBTargetServer,
     RDSInstance, RedisInstance, PeerConnection, CEN]
  }

  function DomainTailUpdaters(): seq<UpdaterKind>
  {
    [VInterface, FloatingIP, IP, VMPodNodeConnection]
  }

  /** The updater list of a domain, in add/update order. */
  function DomainUpdatersInOrder(): seq<UpdaterKind>
  {
    DomainHeadUpdaters() + PodUpdaters() + DomainNetworkUpdaters() + DomainTailUpdaters()
  }

  /** The updater list of a sub-domain (a Kubernetes cluster), in add/update order. */
  function SubDomainUpdatersInOrder(): seq<UpdaterKind>
  {
    PodUpdaters() + [Network, Subnet, VInterface, IP, VMPodNodeConnection]
  }

  /** The domain list before its tail: 37 updaters from Region, AZ, SubDomain on, none a VMPodNodeConnection. */
  lemma DomainFront()
    ensures var front := DomainHeadUpdaters() + PodUpdaters() + DomainNetworkUpdaters();
      |front| == 37 && front[0] == Region && front[1] == AZ && front[2] == SubDomain &&
      VMPodNodeConnection !in front
  {
    var h, p, n := DomainHeadUpdaters(), PodUpdaters(), DomainNetworkUpdaters();
    assert VMPodNodeConnection !in h;
    assert VMPodNodeConnection !in p;
    assert VMPodNodeConnection !in n;
  }

  /**
   * The domain list has 41 updaters, begins with Region, AZ, SubDomain, ends
   * with VInterface, FloatingIP, IP, VMPodNodeConnection, and holds
   * VMPodNodeConnection only in its last position.
   */
  lemma DomainUpdatersShape()
    ensures var us := DomainUpdatersInOrder();
      |us| == 41 && us[0] == Region && us[1] == AZ && us[2] == SubDomain &&
      us[37] == VInterface && us[38] == FloatingIP && us[39] == IP && us[40] == VMPodNodeConnection
    ensures VMPodNodeConnection !in DomainUpdatersInOrder()[..40]
  {
    DomainFront();
    var front, t := DomainHeadUpdaters() + PodUpdaters() + DomainNetworkUpdaters(), DomainTailUpdaters();
    var us := DomainUpdatersInOrder();
    assert us == front + t;
    assert us[..40] == front + t[..3];
  }

  /**
   * The sub-domain list is the domain list's Kubernetes block (PodCluster to
   * Pod) followed by its Network, Subnet, VInterface, IP and
   * VMPodNodeConnection updaters, in the domain list's order; it holds
   * VMPodNodeConnection only in its last position.
   */
  lemma SubDomainUpdatersShape()
    ensures var dom := DomainUpdatersInOrder(); var sub := SubDomainUpdatersInOrder();
      |sub| == 17 && sub[..12] == dom[6..18] &&
      sub[12] == dom[18] && sub[13] == dom[19] && sub[14] == dom[37] && sub[15] == dom[39] && sub[16] == dom[40]
  {
    var h, p, n, t := DomainHeadUpdaters(), PodUpdaters(), DomainNetworkUpdaters(), DomainTailUpdaters();
    var dom := DomainUpdatersInOrder();
    var sub := SubDomainUpdatersInOrder();
    assert dom[6..18] == p;
    assert sub[..12] == p;
    assert dom[18] == n[0] && dom[19] == n[1];
    assert dom[37] == t[0] && dom[39] == t[2] && dom[40] == t[3];
  }

  /** The sub-domain list begins with PodCluster and holds VMPodNodeConnection only in its last position. */
  lemma SubDomainUpdatersEnds()
    ensures |SubDomainUpdatersInOrder()| == 17
    ensures SubDomainUpdatersInOrder()[0] == PodCluster
    ensures SubDomainUpdatersInOrder()[16] == VMPodNodeConnection
    ensures VMPodNodeConnection !in SubDomainUpdatersInOrder()[..16]
  {
    var p := PodUpdaters();
    var sub := SubDomainUpdatersInOrder();
    assert VMPodNodeConnection !in p;
    assert sub[..16] == p + [Network, Subnet, VInterface, IP];
  }

  // ---------------------------------------------------------------- snapshot

  datatype SubDomainResource = SubDomainResource(
    lcuuid: string, verified: bool, errorState: int, errorMessage: string)

  /** A cloud snapshot, reduced to what the recorder inspects: list sizes, flags and states. */
  datatype CloudData = CloudData(
    verified: bool, networks: nat, vinterfaces: nat, vms: nat, pods: nat,
    errorState: int, errorMessage: string, subDomains: seq<SubDomainResource>)

  datatype CheckOutcome = DomainNotFound | NoNetworksOrVInterfaces | NoVMsAndPods | Passed

  /** checkCloudData: the domain row must exist; an unverified snapshot must look complete. */
  function CheckCloudData(domainFound: bool, c: CloudData): (r: CheckOutcome)
    ensures r == Passed <==>
      domainFound && (c.verified || (c.networks > 0 && c.vinterfaces > 0 && (c.vms > 0 || c.pods > 0)))
    ensures r == DomainNotFound <==> !domainFound
  {
    if !domainFound then DomainNotFound
    else if !c.verified && (c.networks == 0 || c.vinterfaces == 0) then NoNetworksOrVInterfaces
    else if !c.verified && c.vms == 0 && c.pods == 0 then NoVMsAndPods
    else Passed
  }

  // ---------------------------------------------------------------- status

  const RESOURCE_STATE_CODE_SUCCESS: int := 1
  const RESOURCE_STATE_CODE_EXCEPTION: int := 3
  const RESOURCE_STATE_CODE_WARNING: int := 4
  /** At most this many sub-domain messages are shown. */
  const SUB_DOMAIN_ERROR_DISPLAY_NUM: nat := 10

  /** exception > warning > success; any other code ranks 0. */
  function StateLevel(state: int): nat
  {
    if state == RESOURCE_STATE_CODE_SUCCESS then 1
    else if state == RESOURCE_STATE_CODE_WARNING then 2
    else if state == RESOURCE_STATE_CODE_EXCEPTION then 3
    else 0
  }

  /** The state fold of formatDomainStateInfo: replace only on a strictly higher level. */
  function FoldState(state: int, sds: seq<SubDomainResource>): (r: int)
    decreases |sds|
    ensures StateLevel(r) >= StateLevel(state)
    ensures forall k :: 0 <= k < |sds| ==> StateLevel(r) >= StateLevel(sds[k].errorState)
    ensures r == state || exists k :: 0 <= k < |sds| && r == sds[k].errorState
  {
    if sds == [] then state
    else
      var next := if StateLevel(sds[0].errorState) > StateLevel(state) then sds[0].errorState else state;
      var r := FoldState(next, sds[1..]);
      assert forall k :: 1 <= k < |sds| ==> sds[k] == sds[1..][k - 1];
      r
  }

  /** The non-empty sub-domain messages, in iteration order. */
  function NonEmptyMessages(sds: seq<SubDomainResource>): (r: seq<string>)
    ensures |r| <= |sds|
    ensures forall m :: m in r ==> m != ""
    ensures forall k :: 0 <= k < |sds| && sds[k].errorMessage != "" ==> sds[k].errorMessage in r
    ensures forall m :: m in r ==> exists k :: 0 <= k < |sds| && sds[k].errorMessage == m
  {
    if sds == [] then []
    else
      var rest := NonEmptyMessages(sds[1..]);
      assert forall k :: 1 <= k < |sds| ==> sds[k] == sds[1..][k - 1];
      if sds[0].errorMessage != "" then [sds[0].errorMessage] + rest else rest
  }

  function CountLine(n: nat): string
  {
    "共有" + Text.NatToString(n) + "个附属容器集群存在异常\n"
  }

  /** formatDomainStateInfo: the aggregated (state, message) of a domain. */
  function FormatDomainStateInfo(c: CloudData): (r: (int, string))
    ensures StateLevel(r.0) >= StateLevel(c.errorState)
    ensures forall k :: 0 <= k < |c.subDomains| ==> StateLevel(r.0) >= StateLevel(c.subDomains[k].errorState)
    ensures r.0 == c.errorState || exists k :: 0 <= k < |c.subDomains| && r.0 == c.subDomains[k].errorState
    ensures Text.HasPrefix(r.1, c.errorMessage)
    ensures NonEmptyMessages(c.subDomains) == [] <==> r.1 == c.errorMessage
  {
    var state := FoldState(c.errorState, c.subDomains);
    var msgs := NonEmptyMessages(c.subDomains);
    if msgs == [] then (state, c.errorMessage)
    else
      var head := if c.errorMessage != "" then c.errorMessage + "\n\n" else c.errorMessage;
      var list :=
        if |msgs| > SUB_DOMAIN_ERROR_DISPLAY_NUM
        then Text.Join(msgs[..SUB_DOMAIN_ERROR_DISPLAY_NUM], "\n") + "\n..."
        else Text.Join(msgs, "\n");
      var msg := head + CountLine(|msgs|) + list;
      assert msg[..|c.errorMessage|] == c.errorMessage;
      assert |msg| > |c.errorMessage|;
      (state, msg)
  }

  /**
   * The message lists at most SUB_DOMAIN_ERROR_DISPLAY_NUM sub-domain
   * messages, the first ones in iteration order, and ends in "\n..." when
   * more exist; the own message is separated by a blank line only when it
   * is non-empty.
   */
  lemma FormatDomainMessageShape(c: CloudData)
    ensures var msgs := NonEmptyMessages(c.subDomains);
      var shown := if |msgs| > SUB_DOMAIN_ERROR_DISPLAY_NUM then msgs[..SUB_DOMAIN_ERROR_DISPLAY_NUM] else msgs;
      msgs != [] ==>
        |shown| <= SUB_DOMAIN_ERROR_DISPLAY_NUM &&
        FormatDomainStateInfo(c).1 ==
          (if c.errorMessage == "" then "" else c.errorMessage + "\n\n")
          + CountLine(|msgs|) + Text.Join(shown, "\n")
          + (if |msgs| > SUB_DOMAIN_ERROR_DISPLAY_NUM then "\n..." else "")
  {
  }

  // ---------------------------------------------------------------- passes

  datatype Scope = DomainScope | SubDomainScope(lcuuid: string)

  /** One observable step of the recorder. */
  datatype Call =
    | CacheRefresh
    | UpdateSequence
    | SyncDomain
    | SyncSubDomain(lcuuid: string)
    | AddOrUpdate(kind: UpdaterKind, scope: Scope)
    | Delete(kind: UpdaterKind, scope: Scope)

  /** HandleAddAndUpdate of each updater, in list order. */
  function AddAll(us: seq<UpdaterKind>, scope: Scope): seq<Call>
  {
    seq(|us|, i requires 0 <= i < |us| => AddOrUpdate(us[i], scope))
  }

  /** HandleDelete of each updater, last one first. */
  function DeleteReversed(us: seq<UpdaterKind>, scope: Scope): seq<Call>
  {
    seq(|us|, i requires 0 <= i < |us| => Delete(us[|us| - 1 - i], scope))
  }

  /** The domain pass: add/update in order, delete in reverse except the last updater, which deletes last. */
  function DomainPass(us: seq<UpdaterKind>): seq<Call>
    requires |us| >= 1
  {
    AddAll(us, DomainScope) + DeleteReversed(us[..|us| - 1], DomainScope) + [Delete(us[|us| - 1], DomainScope)]
  }

  /** One verified sub-domain: sync its row, add/update in order, delete in reverse without the last updater. */
  function SubDomainPass(lcuuid: string, us: seq<UpdaterKind>): seq<Call>
    requires |us| >= 1
  {
    [SyncSubDomain(lcuuid)] + AddAll(us, SubDomainScope(lcuuid))
    + DeleteReversed(us[..|us| - 1], SubDomainScope(lcuuid))
  }

  /** The passes of the sub-domains `sds`, each running the updaters `us`. */
  function SubDomainPasses(sds: seq<SubDomainResource>, us: seq<UpdaterKind>): seq<Call>
    requires |us| >= 1
  {
    if sds == [] then []
    else
      var last := sds[|sds| - 1];
      SubDomainPasses(sds[..|sds| - 1], us)
      + (if last.verified then SubDomainPass(last.lcuuid, us) else [])
  }

  /** Everything a refresh of `c` does, in order; nothing when the snapshot check fails. */
  function WholePass(domainFound: bool, c: CloudData): seq<Call>
  {
    if CheckCloudData(domainFound, c) != Passed then []
    else
      [UpdateSequence, SyncDomain] + DomainPass(DomainUpdatersInOrder())
      + SubDomainPasses(c.subDomains, SubDomainUpdatersInOrder())
  }

  /** The calls of a whole pass are the head, the domain pass and the sub-domain passes, one after the other. */
  lemma WholePassSplits(before: seq<Call>, domainFound: bool, c: CloudData)
    requires CheckCloudData(domainFound, c) == Passed
    ensures before + [UpdateSequence, SyncDomain] + DomainPass(DomainUpdatersInOrder())
      + SubDomainPasses(c.subDomains, SubDomainUpdatersInOrder()) == before + WholePass(domainFound, c)
  {
    var head, dp, sp := [UpdateSequence, SyncDomain], DomainPass(DomainUpdatersInOrder()),
      SubDomainPasses(c.subDomains, SubDomainUpdatersInOrder());
    assert before + head + dp + sp == before + (head + dp + sp);
  }

  /**
   * In the domain pass every add/update comes before every delete; deletes
   * run from index n-2 down to 0 and the last updater is deleted last.
   */
  lemma DomainPassOrder(us: seq<UpdaterKind>)
    requires |us| >= 1
    ensures var p := DomainPass(us); var n := |us|;
      |p| == 2 * n &&
      (forall i :: 0 <= i < n ==> p[i] == AddOrUpdate(us[i], DomainScope)) &&
      (forall j :: n <= j < 2 * n - 1 ==> p[j] == Delete(us[2 * n - 2 - j], DomainScope)) &&
      p[2 * n - 1] == Delete(us[n - 1], DomainScope)
  {
  }

  /** When the last updater occurs nowhere else in the list, its delete is the final call and the only one. */
  lemma LastDeletedOnlyAtEnd(us: seq<UpdaterKind>)
    requires |us| >= 1
    requires forall i :: 0 <= i < |us| - 1 ==> us[i] != us[|us| - 1]
    ensures var p := DomainPass(us);
      p[|p| - 1] == Delete(us[|us| - 1], DomainScope) &&
      forall i :: 0 <= i < |p| - 1 ==> p[i] != Delete(us[|us| - 1], DomainScope)
  {
    DomainPassOrder(us);
  }

  /** With the real updater list, VMPodNodeConnection is deleted once, as the final call of the domain pass. */
  lemma VMPodNodeConnectionDeletedLast()
    ensures var p := DomainPass(DomainUpdatersInOrder());
      p[|p| - 1] == Delete(VMPodNodeConnection, DomainScope) &&
      forall i :: 0 <= i < |p| - 1 ==> p[i] != Delete(VMPodNodeConnection, DomainScope)
  {
    var us := DomainUpdatersInOrder();
    DomainUpdatersShape();
    assert forall i :: 0 <= i < 40 ==> us[i] == us[..40][i];
    LastDeletedOnlyAtEnd(us);
  }

  /** Sub-domain passes never call HandleDelete of the VMPodNodeConnection updater. */
  lemma {:induction false} SubDomainsNeverDeleteVMPodNodeConnection(sds: seq<SubDomainResource>, us: seq<UpdaterKind>)
    requires |us| >= 1 && us[|us| - 1] == VMPodNodeConnection && VMPodNodeConnection !in us[..|us| - 1]
    ensures forall c :: c in SubDomainPasses(sds, us) ==> !(c.Delete? && c.kind == VMPodNodeConnection)
  {
    if sds != [] {
      SubDomainsNeverDeleteVMPodNodeConnection(sds[..|sds| - 1], us);
      var last := sds[|sds| - 1];
      if last.verified {
        var p := SubDomainPass(last.lcuuid, us);
        var n := |us|;
        forall c | c in p ensures !(c.Delete? && c.kind == VMPodNodeConnection) {
          var i :| 0 <= i < |p| && p[i] == c;
          if i >= n + 1 {
            var k := 2 * n - i - 1;
            assert p[i] == Delete(us[k], SubDomainScope(last.lcuuid));
            assert us[k] == us[..n - 1][k];
          }
        }
      }
    }
  }

  /** The sub-domain updater list ends with the only VM/pod-node connection updater. */
  lemma SubDomainListNeverDeletesVMPodNodeConnection(sds: seq<SubDomainResource>)
    ensures forall c :: c in SubDomainPasses(sds, SubDomainUpdatersInOrder()) ==>
      !(c.Delete? && c.kind == VMPodNodeConnection)
  {
    SubDomainUpdatersEnds();
    SubDomainsNeverDeleteVMPodNodeConnection(sds, SubDomainUpdatersInOrder());
  }

  /** Only verified sub-domains reach the updaters. */
  lemma {:induction false} OnlyVerifiedSubDomainsRun(sds: seq<SubDomainResource>, us: seq<UpdaterKind>)
    requires |us| >= 1
    ensures forall c :: c in SubDomainPasses(sds, us) && (c.AddOrUpdate? || c.Delete?) ==>
      exists k :: 0 <= k < |sds| && sds[k].verified && c.scope == SubDomainScope(sds[k].lcuuid)
    ensures forall c :: c in SubDomainPasses(sds, us) ==> c.SyncSubDomain? || c.AddOrUpdate? || c.Delete?
  {
    if sds != [] {
      var init := sds[..|sds| - 1];
      OnlyVerifiedSubDomainsRun(init, us);
      assert forall k :: 0 <= k < |init| ==> init[k] == sds[k];
    }
  }

  // ---------------------------------------------------------------- database rows

  datatype DomainRow = DomainRow(name: string, state: int, errorMsg: string, syncedAt: int)
  datatype SubDomainRow = SubDomainRow(name: string, state: int, errorMsg: string, syncedAt: int)

  /** syncSubDomain: an existing row takes the sub-domain's state and message; a missing row is left missing. */
  function SyncSubDomainRow(rows: map<string, SubDomainRow>, sd: SubDomainResource, now: int): map<string, SubDomainRow>
  {
    if sd.lcuuid in rows
    then rows[sd.lcuuid := rows[sd.lcuuid].(state := sd.errorState, errorMsg := sd.errorMessage, syncedAt := now)]
    else rows
  }

  function SyncSubDomainRows(rows: map<string, SubDomainRow>, sds: seq<SubDomainResource>, now: int): map<string, SubDomainRow>
  {
    if sds == [] then rows
    else
      var last := sds[|sds| - 1];
      var before := SyncSubDomainRows(rows, sds[..|sds| - 1], now);
      if last.verified then SyncSubDomainRow(before, last, now) else before
  }

  /**
   * Syncing sub-domain rows creates and removes none, and leaves every row
   * that no verified sub-domain of the snapshot names as it was.
   */
  lemma {:induction false} SyncSubDomainRowsFrame(rows: map<string, SubDomainRow>, sds: seq<SubDomainResource>, now: int)
    ensures SyncSubDomainRows(rows, sds, now).Keys == rows.Keys
    ensures forall l :: l in rows && (forall k :: 0 <= k < |sds| && sds[k].verified ==> sds[k].lcuuid != l) ==>
      SyncSubDomainRows(rows, sds, now)[l] == rows[l]
  {
    if sds != [] {
      var init := sds[..|sds| - 1];
      SyncSubDomainRowsFrame(rows, init, now);
      assert forall k :: 0 <= k < |init| ==> init[k] == sds[k];
    }
  }

  /** syncDomain: the domain row takes the aggregated state and message. */
  function SyncDomainRow(row: Option<DomainRow>, c: CloudData, now: int): Option<DomainRow>
  {
    if row.None? then None
    else
      var info := FormatDomainStateInfo(c);
      Some(row.value.(state := info.0, errorMsg := info.1, syncedAt := now))
  }

  // ---------------------------------------------------------------- the recorder

  class Recorder {
    /** The capacity-1 `canRefresh` channel: true when it holds the token. */
    var tokenFree: bool
    /** A sync pass started by Refresh that has not finished yet (its goroutine). */
    var pending: Option<CloudData>
    /** Everything the recorder has done so far. */
    var calls: seq<Call>
    var domainRow: Option<DomainRow>
    var subDomainRows: map<string, SubDomainRow>

    /** The token is missing exactly while a sync pass is pending. */
    ghost predicate Valid()
      reads this
    {
      tokenFree <==> pending.None?
    }

    /** NewRecorder followed by Start, which puts the token into the channel. */
    constructor (domainRow: Option<DomainRow>, subDomainRows: map<string, SubDomainRow>)
      ensures Valid() && tokenFree && calls == []
      ensures this.domainRow == domainRow && this.subDomainRows == subDomainRows
    {
      this.tokenFree := true;
      this.pending := None;
      this.calls := [];
      this.domainRow := domainRow;
      this.subDomainRows := subDomainRows;
    }

    /** Refresh: start a sync pass if the token can be taken, otherwise drop the request. */
    method Refresh(c: CloudData)
      requires Valid()
      modifies this
      ensures Valid()
      ensures old(tokenFree) ==> !tokenFree && pending == Some(c)
      ensures !old(tokenFree) ==> tokenFree == old(tokenFree) && pending == old(pending)
      ensures calls == old(calls) && domainRow == old(domainRow) && subDomainRows == old(subDomainRows)
    {
      if tokenFree {
        tokenFree := false;
        pending := Some(c);
      }
    }

    /** The goroutine of runNewRefreshWhole, run to completion: it gives the token back. */
    method CompleteRefreshWhole(now: int)
      requires Valid() && pending.Some?
      modifies this
      ensures Valid() && tokenFree
      ensures calls == old(calls) + WholePass(old(domainRow).Some?, old(pending).value)
      ensures CheckCloudData(old(domainRow).Some?, old(pending).value) == Passed ==>
        domainRow == SyncDomainRow(old(domainRow), old(pending).value, now) &&
        subDomainRows == SyncSubDomainRows(old(subDomainRows), old(pending).value.subDomains, now)
      ensures CheckCloudData(old(domainRow).Some?, old(pending).value) != Passed ==>
        domainRow == old(domainRow) && subDomainRows == old(subDomainRows)
    {
      var c := pending.value;
      if CheckCloudData(domainRow.Some?, c) != Passed {
        pending := None;
        tokenFree := true;
        return;
      }
      RunWholePass(c, now);
      pending := None;
      tokenFree := true;
    }

    /** The whole pass of a snapshot that passed the check: the domain row, then the domain and sub-domain updaters. */
    method RunWholePass(c: CloudData, now: int)
      requires CheckCloudData(domainRow.Some?, c) == Passed
      modifies this`calls, this`domainRow, this`subDomainRows
      ensures calls == old(calls) + WholePass(old(domainRow).Some?, c)
      ensures domainRow == SyncDomainRow(old(domainRow), c, now)
      ensures subDomainRows == SyncSubDomainRows(old(subDomainRows), c.subDomains, now)
    {
      ghost var c0 := calls;
      calls := calls + [UpdateSequence, SyncDomain];
      domainRow := SyncDomainRow(domainRow, c, now);

      RunDomainPass(DomainUpdatersInOrder());
      RunSubDomainPasses(c.subDomains, SubDomainUpdatersInOrder(), now);
      WholePassSplits(c0, old(domainRow).Some?, c);
    }

    /** The domain's updaters: add/update all, delete n-2 down to 0, then the last one. */
    method RunDomainPass(us: seq<UpdaterKind>)
      requires |us| >= 1
      modifies this`calls
      ensures calls == old(calls) + DomainPass(us)
    {
      RunAddAll(us, DomainScope);
      RunDeletesBelowLast(us, DomainScope);
      calls := calls + [Delete(us[|us| - 1], DomainScope)];
    }

    /** The loop over the snapshot's sub-domains. */
    method RunSubDomainPasses(sds: seq<SubDomainResource>, us: seq<UpdaterKind>, now: int)
      requires |us| >= 1
      modifies this`calls, this`subDomainRows
      ensures calls == old(calls) + SubDomainPasses(sds, us)
      ensures subDomainRows == SyncSubDomainRows(old(subDomainRows), sds, now)
    {
      var k := 0;
      while k < |sds|
        invariant 0 <= k <= |sds|
        invariant calls == old(calls) + SubDomainPasses(sds[..k], us)
        invariant subDomainRows == SyncSubDomainRows(old(subDomainRows), sds[..k], now)
      {
        assert sds[..k + 1][..k] == sds[..k];
        ghost var c0 := calls;
        ghost var pass := if sds[k].verified then SubDomainPass(sds[k].lcuuid, us) else [];
        assert SubDomainPasses(sds[..k + 1], us) == SubDomainPasses(sds[..k], us) + pass;
        RunSubDomainPass(sds[k], us, now);
        assert calls == c0 + pass;
        k := k + 1;
      }
      assert sds[..k] == sds;
    }

    /** One sub-domain: skipped unless verified; otherwise sync its row and run its updaters. */
    method RunSubDomainPass(sd: SubDomainResource, us: seq<UpdaterKind>, now: int)
      requires |us| >= 1
      modifies this`calls, this`subDomainRows
      ensures calls == old(calls) + (if sd.verified then SubDomainPass(sd.lcuuid, us) else [])
      ensures subDomainRows == (if sd.verified then SyncSubDomainRow(old(subDomainRows), sd, now) else old(subDomainRows))
    {
      if sd.verified {
        ghost var c0 := calls;
        var sync := [SyncSubDomain(sd.lcuuid)];
        ghost var adds, deletes := AddAll(us, SubDomainScope(sd.lcuuid)), DeleteReversed(us[..|us| - 1], SubDomainScope(sd.lcuuid));
        calls := calls + sync;
        subDomainRows := SyncSubDomainRow(subDomainRows, sd, now);
        RunAddAll(us, SubDomainScope(sd.lcuuid));
        RunDeletesBelowLast(us, SubDomainScope(sd.lcuuid));
        assert calls == c0 + sync + adds + deletes;
        assert c0 + sync + adds + deletes == c0 + (sync + adds + deletes);
      }
    }

    /** `for _, updater := range us { updater.HandleAddAndUpdate() }` */
    method RunAddAll(us: seq<UpdaterKind>, scope: Scope)
      modifies this`calls
      ensures calls == old(calls) + AddAll(us, scope)
    {
      var i := 0;
      while i < |us|
        invariant 0 <= i <= |us|
        invariant calls == old(calls) + AddAll(us[..i], scope)
      {
        assert AddAll(us[..i + 1], scope) == AddAll(us[..i], scope) + [AddOrUpdate(us[i], scope)];
        calls := calls + [AddOrUpdate(us[i], scope)];
        i := i + 1;
      }
      assert us[..i] == us;
    }

    /** `for i := len(us) - 2; i >= 0; i-- { us[i].HandleDelete() }` */
    method RunDeletesBelowLast(us: seq<UpdaterKind>, scope: Scope)
      requires |us| >= 1
      modifies this`calls
      ensures calls == old(calls) + DeleteReversed(us[..|us| - 1], scope)
    {
      var i := |us| - 2;
      while i >= 0
        invariant -1 <= i <= |us| - 2
        invariant calls == old(calls) + DeleteReversed(us[i + 1..|us| - 1], scope)
      {
        assert DeleteReversed(us[i..|us| - 1], scope) == DeleteReversed(us[i + 1..|us| - 1], scope) + [Delete(us[i], scope)];
        calls := calls + [Delete(us[i], scope)];
        i := i - 1;
      }
      assert us[0..|us| - 1] == us[..|us| - 1];
    }

    /**
     * runNewRefreshCache: poll until the token can be taken (a pending sync
     * pass runs to completion while the poller sleeps), refresh the cache,
     * put the token back.
     */
    method RunNewRefreshCache(now: int)
      requires Valid()
      modifies this
      ensures Valid() && tokenFree
      ensures calls == old(calls)
        + (if old(pending).Some? then WholePass(old(domainRow).Some?, old(pending).value) else [])
        + [CacheRefresh]
    {
      while !tokenFree
        invariant Valid()
        invariant !tokenFree ==> calls == old(calls) && pending == old(pending) && domainRow == old(domainRow)
        invariant tokenFree ==> (calls == old(calls)
          + (if old(pending).Some? then WholePass(old(domainRow).Some?, old(pending).value) else []))
        decreases if tokenFree then 0 else 1
      {
        CompleteRefreshWhole(now);
      }
      tokenFree := false;
      calls := calls + [CacheRefresh];
      tokenFree := true;
    }
  }
}
