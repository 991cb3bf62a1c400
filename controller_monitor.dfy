/**
 * The controller monitor: a periodic health check that moves controllers
 * between COMPLETE and EXCEPTION only after they have checked the same way
 * for three intervals, a check of vtaps without a controller, and the
 * greedy allocation of controllers to vtaps, AZ by AZ.
 *
 * The database reads are inputs (rows), its writes are outputs (update
 * records); the HTTP health probe is a function of the address checked;
 * the clock is the `now` parameter in seconds; the reallocation channel is
 * the sequence of requests sent on it.
 */
module ControllerMonitor {
  import opened Wrappers

  /** Constants of the controller's common package (upstream values). */
  const HOST_STATE_COMPLETE: int := 2
  const HOST_STATE_MAINTENANCE: int := 3
  const HOST_STATE_EXCEPTION: int := 4
  /** HEALTH_CHECK_INTERVAL in seconds. */
  const HEALTH_CHECK_INTERVAL: int := 60
  const VTAP_EXCEPTION_ALLOC_CONTROLLER_FAILED: bv64 := 0x8000_0000

  datatype Controller = Controller(ip: string, natIP: string, natIPEnabled: int, state: int, vtapMax: int)

  datatype VTap = VTap(name: string, controllerIP: string, az: string, exceptions: bv64)

  // ---------------------------------------------------------------- health check

  /** The address probed: the NAT address when NAT is enabled. */
  function CheckIP(c: Controller): string
  {
    if c.natIPEnabled != 0 then c.natIP else c.ip
  }

  /**
   * The monitor's state: when each pending controller entered the normal or
   * the exception dict, the controller state writes and the reallocation
   * requests sent so far.
   */
  datatype Health = Health(normal: map<string, int>, exception: map<string, int>,
                           updates: seq<(string, int)>, realloc: seq<string>)

  /** One controller of healthCheck's loop. */
  function HealthStep(h: Health, c: Controller, active: bool, now: int): Health
  {
    var ip := c.ip;
    if c.state == HOST_STATE_COMPLETE then
      if active then h.(normal := h.normal - {ip}, exception := h.exception - {ip})
      else if ip in h.exception then
        if now - h.exception[ip] >= 3 * HEALTH_CHECK_INTERVAL then
          h.(exception := h.exception - {ip}, updates := h.updates + [(ip, HOST_STATE_EXCEPTION)], realloc := h.realloc + [ip])
        else h
      else h.(exception := h.exception[ip := now])
    else if active then
      if ip in h.normal then
        if now - h.normal[ip] >= 3 * HEALTH_CHECK_INTERVAL then
          h.(normal := h.normal - {ip}, updates := h.updates + [(ip, HOST_STATE_COMPLETE)])
        else h
      else h.(normal := h.normal[ip := now])
    else h.(normal := h.normal - {ip}, exception := h.exception - {ip})
  }

  /** healthCheck over the controllers not in maintenance, in order. */
  function HealthFold(h: Health, cs: seq<Controller>, isActive: string -> bool, now: int): Health
  {
    if cs == [] then h
    else
      var prev := HealthFold(h, cs[..|cs| - 1], isActive, now);
      var c := cs[|cs| - 1];
      if c.state == HOST_STATE_MAINTENANCE then prev else HealthStep(prev, c, isActive(CheckIP(c)), now)
  }

  /** The IPs of the state writes that set EXCEPTION, in order. */
  function ExceptionIPs(updates: seq<(string, int)>): seq<string>
  {
    if updates == [] then []
    else
      var u := updates[|updates| - 1];
      ExceptionIPs(updates[..|updates| - 1]) + (if u.1 == HOST_STATE_EXCEPTION then [u.0] else [])
  }

  /** The vtaps with a controller whose allocation-failed bit is set get the bit cleared. */
  function CheckUpdates(vtaps: seq<VTap>): seq<(string, bv64)>
  {
    if vtaps == [] then []
    else
      var v := vtaps[|vtaps| - 1];
      CheckUpdates(vtaps[..|vtaps| - 1]) +
        (if v.controllerIP != "" && FailedBitSet(v.exceptions)
         then [(v.name, FlipFailedBit(v.exceptions))] else [])
  }

  predicate SomeWithoutController(vtaps: seq<VTap>)
  {
    exists i :: 0 <= i < |vtaps| && vtaps[i].controllerIP == ""
  }

  class ControllerCheck {
    var normalControllerDict: map<string, int>
    var exceptionControllerDict: map<string, int>
    /** The excluded IPs sent on the reallocation channel. */
    var reallocRequests: seq<string>

    constructor ()
      ensures normalControllerDict == map[] && exceptionControllerDict == map[] && reallocRequests == []
    {
      normalControllerDict := map[];
      exceptionControllerDict := map[];
      reallocRequests := [];
    }

    /** healthCheck: returns the controller state writes. */
    method HealthCheck(controllers: seq<Controller>, isActive: string -> bool, now: int) returns (updates: seq<(string, int)>)
      modifies this
      ensures var h := HealthFold(Health(old(normalControllerDict), old(exceptionControllerDict), [], old(reallocRequests)),
                                  controllers, isActive, now);
        normalControllerDict == h.normal && exceptionControllerDict == h.exception &&
        updates == h.updates && reallocRequests == h.realloc
    {
      updates := [];
      var i := 0;
      while i < |controllers|
        invariant 0 <= i <= |controllers|
        invariant var h := HealthFold(Health(old(normalControllerDict), old(exceptionControllerDict), [], old(reallocRequests)),
                                      controllers[..i], isActive, now);
          normalControllerDict == h.normal && exceptionControllerDict == h.exception &&
          updates == h.updates && reallocRequests == h.realloc
      {
        assert controllers[..i + 1][..i] == controllers[..i];
        var controller := controllers[i];
        if controller.state == HOST_STATE_MAINTENANCE {
          i := i + 1;
          continue;
        }
        var checkIP := controller.ip;
        if controller.natIPEnabled != 0 {
          checkIP := controller.natIP;
        }
        var active := isActive(checkIP);
        var ip := controller.ip;
        if controller.state == HOST_STATE_COMPLETE {
          if active {
            normalControllerDict := normalControllerDict - {ip};
            exceptionControllerDict := exceptionControllerDict - {ip};
          } else if ip in exceptionControllerDict {
            if now - exceptionControllerDict[ip] >= 3 * HEALTH_CHECK_INTERVAL {
              exceptionControllerDict := exceptionControllerDict - {ip};
              updates := updates + [(ip, HOST_STATE_EXCEPTION)];
              reallocRequests := reallocRequests + [ip];
            }
          } else {
            exceptionControllerDict := exceptionControllerDict[ip := now];
          }
        } else {
          if active {
            if ip in normalControllerDict {
              if now - normalControllerDict[ip] >= 3 * HEALTH_CHECK_INTERVAL {
                normalControllerDict := normalControllerDict - {ip};
                updates := updates + [(ip, HOST_STATE_COMPLETE)];
              }
            } else {
              normalControllerDict := normalControllerDict[ip := now];
            }
          } else {
            normalControllerDict := normalControllerDict - {ip};
            exceptionControllerDict := exceptionControllerDict - {ip};
          }
        }
        i := i + 1;
      }
      assert controllers[..|controllers|] == controllers;
    }

    /** vtapControllerCheck: returns the exception writes; requests a reallocation when a vtap has no controller. */
    method VTapControllerCheck(vtaps: seq<VTap>) returns (updates: seq<(string, bv64)>)
      modifies this
      ensures updates == CheckUpdates(vtaps)
      ensures reallocRequests == old(reallocRequests) + (if SomeWithoutController(vtaps) then [""] else [])
      ensures normalControllerDict == old(normalControllerDict) && exceptionControllerDict == old(exceptionControllerDict)
    {
      var noControllerVtapCount;
      updates, noControllerVtapCount := ScanVTaps(vtaps);
      if noControllerVtapCount > 0 {
        reallocRequests := reallocRequests + [""];
      }
    }
  }

  /** The loop of vtapControllerCheck: the exception writes, and how many vtaps have no controller. */
  method ScanVTaps(vtaps: seq<VTap>) returns (updates: seq<(string, bv64)>, noControllerVtapCount: nat)
    ensures updates == CheckUpdates(vtaps)
    ensures noControllerVtapCount > 0 <==> SomeWithoutController(vtaps)
  {
    updates := [];
    noControllerVtapCount := 0;
    var i := 0;
    while i < |vtaps|
      invariant 0 <= i <= |vtaps|
      invariant updates == CheckUpdates(vtaps[..i])
      invariant noControllerVtapCount > 0 <==> SomeWithoutController(vtaps[..i])
    {
      assert vtaps[..i + 1][..i] == vtaps[..i];
      var vtap := vtaps[i];
      if vtap.controllerIP == "" {
        noControllerVtapCount := noControllerVtapCount + 1;
        assert vtaps[..i + 1][i] == vtap;
      } else if FailedBitSet(vtap.exceptions) {
        updates := updates + [(vtap.name, FlipFailedBit(vtap.exceptions))];
      }
      i := i + 1;
    }
    assert vtaps[..|vtaps|] == vtaps;
  }

  // ---------------------------------------------------------------- health check properties

  /**
   * One check changes a controller's state only once its dict entry is at
   * least three intervals old: to EXCEPTION for a COMPLETE controller that
   * checks inactive (also requesting reallocation), to COMPLETE for another
   * that checks active. Otherwise no state is written.
   */
  lemma HealthStepWrites(h: Health, c: Controller, active: bool, now: int)
    ensures var h' := HealthStep(h, c, active, now);
      (h'.updates == h.updates + [(c.ip, HOST_STATE_EXCEPTION)] && h'.realloc == h.realloc + [c.ip]) <==>
        (c.state == HOST_STATE_COMPLETE && !active && c.ip in h.exception && now - h.exception[c.ip] >= 3 * HEALTH_CHECK_INTERVAL)
    ensures var h' := HealthStep(h, c, active, now);
      h'.updates == h.updates + [(c.ip, HOST_STATE_COMPLETE)] <==>
        (c.state != HOST_STATE_COMPLETE && active && c.ip in h.normal && now - h.normal[c.ip] >= 3 * HEALTH_CHECK_INTERVAL)
    ensures var h' := HealthStep(h, c, active, now);
      h'.updates == h.updates || |h'.updates| == |h.updates| + 1
  {
    var h' := HealthStep(h, c, active, now);
    if h'.updates != h.updates {
      assert |h'.updates| == |h.updates| + 1;
    }
    if h'.updates == h.updates + [(c.ip, HOST_STATE_COMPLETE)] {
      assert h'.updates[|h.updates|].1 == HOST_STATE_COMPLETE;
    }
    if h'.updates == h.updates + [(c.ip, HOST_STATE_EXCEPTION)] {
      assert h'.updates[|h.updates|].1 == HOST_STATE_EXCEPTION;
    }
  }

  /**
   * A check never acts on an unseen controller: one absent from both dicts
   * only enters a dict (COMPLETE and inactive: the exception dict; other and
   * active: the normal dict) and no state is written.
   */
  lemma FirstCheckOnlyRecords(h: Health, c: Controller, active: bool, now: int)
    requires c.ip !in h.normal && c.ip !in h.exception
    ensures var h' := HealthStep(h, c, active, now);
      h'.updates == h.updates && h'.realloc == h.realloc &&
      (c.ip in h'.exception <==> c.state == HOST_STATE_COMPLETE && !active) &&
      (c.ip in h'.normal <==> c.state != HOST_STATE_COMPLETE && active)
  {
  }

  /** One check writes at most one state and requests a reallocation exactly when it writes EXCEPTION. */
  lemma HealthStepLog(h: Health, c: Controller, active: bool, now: int)
    ensures var h' := HealthStep(h, c, active, now);
      (h'.updates == h.updates && h'.realloc == h.realloc) ||
      (h'.updates == h.updates + [(c.ip, HOST_STATE_EXCEPTION)] && h'.realloc == h.realloc + [c.ip]) ||
      (h'.updates == h.updates + [(c.ip, HOST_STATE_COMPLETE)] && h'.realloc == h.realloc)
  {
  }

  /** The same, for the last controller of a check. */
  lemma HealthFoldLastLog(h: Health, cs: seq<Controller>, isActive: string -> bool, now: int)
    requires cs != []
    ensures var prev := HealthFold(h, cs[..|cs| - 1], isActive, now);
      var next := HealthFold(h, cs, isActive, now);
      (next.updates == prev.updates && next.realloc == prev.realloc) ||
      (next.updates == prev.updates + [(cs[|cs| - 1].ip, HOST_STATE_EXCEPTION)] && next.realloc == prev.realloc + [cs[|cs| - 1].ip]) ||
      (next.updates == prev.updates + [(cs[|cs| - 1].ip, HOST_STATE_COMPLETE)] && next.realloc == prev.realloc)
  {
    var c := cs[|cs| - 1];
    if c.state != HOST_STATE_MAINTENANCE {
      HealthStepLog(HealthFold(h, cs[..|cs| - 1], isActive, now), c, isActive(CheckIP(c)), now);
    }
  }

  /** Appending one write extends the EXCEPTION IPs by that write's IP when it sets EXCEPTION. */
  lemma ExceptionIPsSnoc(updates: seq<(string, int)>, u: (string, int))
    ensures ExceptionIPs(updates + [u]) == ExceptionIPs(updates) + (if u.1 == HOST_STATE_EXCEPTION then [u.0] else [])
  {
    assert (updates + [u])[..|updates|] == updates;
  }

  /**
   * Over a whole check, the reallocation requests are the controllers set
   * to EXCEPTION, in the same order.
   */
  lemma {:induction false} HealthFoldRequestsMatchExceptions(h: Health, cs: seq<Controller>, isActive: string -> bool, now: int)
    requires h.updates == []
    ensures var h' := HealthFold(h, cs, isActive, now);
      h'.realloc == h.realloc + ExceptionIPs(h'.updates)
  {
    if cs != [] {
      var c := cs[|cs| - 1];
      HealthFoldRequestsMatchExceptions(h, cs[..|cs| - 1], isActive, now);
      HealthFoldLastLog(h, cs, isActive, now);
      var prev := HealthFold(h, cs[..|cs| - 1], isActive, now);
      ExceptionIPsSnoc(prev.updates, (c.ip, HOST_STATE_EXCEPTION));
      ExceptionIPsSnoc(prev.updates, (c.ip, HOST_STATE_COMPLETE));
    }
  }

  /** Every state write of a check is COMPLETE or EXCEPTION. */
  lemma {:induction false} HealthFoldWritesStates(h: Health, cs: seq<Controller>, isActive: string -> bool, now: int)
    requires h.updates == []
    ensures var h' := HealthFold(h, cs, isActive, now);
      forall k :: 0 <= k < |h'.updates| ==> h'.updates[k].1 == HOST_STATE_COMPLETE || h'.updates[k].1 == HOST_STATE_EXCEPTION
  {
    if cs != [] {
      HealthFoldWritesStates(h, cs[..|cs| - 1], isActive, now);
      HealthFoldLastLog(h, cs, isActive, now);
    }
  }

  /** The allocation-failed bit is set in `e`. */
  predicate FailedBitSet(e: bv64)
  {
    e & VTAP_EXCEPTION_ALLOC_CONTROLLER_FAILED != 0
  }

  /** `e` with the allocation-failed bit toggled (the source's exclusive or). */
  function FlipFailedBit(e: bv64): bv64
  {
    e ^ VTAP_EXCEPTION_ALLOC_CONTROLLER_FAILED
  }

  /** `e` with the allocation-failed bit set (the source's inclusive or). */
  function SetFailedBit(e: bv64): bv64
  {
    e | VTAP_EXCEPTION_ALLOC_CONTROLLER_FAILED
  }

  /** `e` with the allocation-failed bit cleared and every other bit kept. */
  function WithoutFailedBit(e: bv64): bv64
  {
    e & !VTAP_EXCEPTION_ALLOC_CONTROLLER_FAILED
  }

  /** The update `u` clears the allocation-failed bit of a vtap of `vtaps` that has a controller and carries the bit. */
  predicate ClearedFrom(vtaps: seq<VTap>, u: (string, bv64))
  {
    !FailedBitSet(u.1) &&
    exists v :: v in vtaps && v.name == u.0 && v.controllerIP != "" && FailedBitSet(v.exceptions) &&
      u.1 == WithoutFailedBit(v.exceptions)
  }

  /** vtapControllerCheck clears exactly the allocation-failed bit of the vtaps that have a controller and carry it. */
  lemma {:induction false} CheckUpdatesClearBit(vtaps: seq<VTap>)
    ensures forall u :: u in CheckUpdates(vtaps) ==> ClearedFrom(vtaps, u)
    ensures |CheckUpdates(vtaps)| <= |vtaps|
  {
    if vtaps != [] {
      var init := vtaps[..|vtaps| - 1];
      var v := vtaps[|vtaps| - 1];
      CheckUpdatesClearBit(init);
      assert vtaps == init + [v];
      forall u | u in CheckUpdates(vtaps)
        ensures ClearedFrom(vtaps, u)
      {
        if u in CheckUpdates(init) {
          assert ClearedFrom(init, u);
          var w :| w in init && w.name == u.0 && w.controllerIP != "" && FailedBitSet(w.exceptions) &&
            u.1 == WithoutFailedBit(w.exceptions);
          assert w in vtaps;
        } else {
          XorClearsSetBit(v.exceptions);
          assert v in vtaps;
        }
      }
    }
  }

  /** When the bit is set, xor with it clears exactly that bit. */
  lemma XorClearsSetBit(e: bv64)
    requires FailedBitSet(e)
    ensures FlipFailedBit(e) == WithoutFailedBit(e)
    ensures !FailedBitSet(FlipFailedBit(e))
  {
  }

  lemma UnsetBitStaysClear(e: bv64)
    requires !FailedBitSet(e)
    ensures e == WithoutFailedBit(e)
  {
  }

  // ---------------------------------------------------------------- allocation inputs

  datatype AZRow = AZRow(lcuuid: string, region: string)

  datatype AZControllerConnection = AZControllerConnection(az: string, region: string, controllerIP: string)

  /** A vtap keeps its controller unless it has none or its controller is the excluded one. */
  predicate UsesController(v: VTap, excludeIP: string)
  {
    v.controllerIP != "" && v.controllerIP != excludeIP
  }

  /** The number of vtaps that keep controller `ip`. */
  function UsedCount(vtaps: seq<VTap>, ip: string, excludeIP: string): nat
  {
    if vtaps == [] then 0
    else
      var v := vtaps[|vtaps| - 1];
      UsedCount(vtaps[..|vtaps| - 1], ip, excludeIP) + (if UsesController(v, excludeIP) && v.controllerIP == ip then 1 else 0)
  }

  /** The vtaps of AZ `az` waiting for a controller, in order. */
  function PendingIn(vtaps: seq<VTap>, az: string, excludeIP: string): seq<VTap>
  {
    if vtaps == [] then []
    else
      var v := vtaps[|vtaps| - 1];
      PendingIn(vtaps[..|vtaps| - 1], az, excludeIP) + (if !UsesController(v, excludeIP) && v.az == az then [v] else [])
  }

  function IntOr0(m: map<string, int>, k: string): int
  {
    if k in m then m[k] else 0
  }

  function SeqOrEmpty<T>(m: map<string, seq<T>>, k: string): seq<T>
  {
    if k in m then m[k] else []
  }

  /** The remaining capacity of every COMPLETE controller: VTapMax less the vtaps it keeps. */
  function AvailableOf(controllers: seq<Controller>, vtaps: seq<VTap>, excludeIP: string): map<string, int>
  {
    if controllers == [] then map[]
    else
      var c := controllers[|controllers| - 1];
      var prev := AvailableOf(controllers[..|controllers| - 1], vtaps, excludeIP);
      if c.state == HOST_STATE_COMPLETE then prev[c.ip := c.vtapMax - UsedCount(vtaps, c.ip, excludeIP)] else prev
  }

  /** The AZs of `region` that have waiting vtaps, in row order. */
  function RegionAZs(azs: seq<AZRow>, vtaps: seq<VTap>, excludeIP: string, region: string): seq<string>
  {
    if azs == [] then []
    else
      var a := azs[|azs| - 1];
      RegionAZs(azs[..|azs| - 1], vtaps, excludeIP, region) +
        (if a.region == region && PendingIn(vtaps, a.lcuuid, excludeIP) != [] then [a.lcuuid] else [])
  }

  /** `ip` once for each occurrence of `az` in the list. */
  function Occurrences(list: seq<string>, ip: string, az: string): seq<string>
  {
    if list == [] then []
    else Occurrences(list[..|list| - 1], ip, az) + (if list[|list| - 1] == az then [ip] else [])
  }

  /** What one connection grants to `az`: "ALL" grants every AZ of its region. */
  function ConnGrants(c: AZControllerConnection, azs: seq<AZRow>, vtaps: seq<VTap>, excludeIP: string, az: string): seq<string>
  {
    var regionAZs := RegionAZs(azs, vtaps, excludeIP, c.region);
    if regionAZs == [] then []
    else if c.az == "ALL" then Occurrences(regionAZs, c.controllerIP, az)
    else if c.az == az then [c.controllerIP]
    else []
  }

  /** The controller IPs granted to `az`, in connection order. */
  function GrantsFor(conns: seq<AZControllerConnection>, azs: seq<AZRow>, vtaps: seq<VTap>, excludeIP: string, az: string): seq<string>
  {
    if conns == [] then []
    else GrantsFor(conns[..|conns| - 1], azs, vtaps, excludeIP, az) + ConnGrants(conns[|conns| - 1], azs, vtaps, excludeIP, az)
  }

  // ---------------------------------------------------------------- greedy allocation

  datatype KVPair = KVPair(key: string, value: int)

  datatype AllocResult = Assigned(vtapName: string, controllerIP: string, exceptions: bv64)
                       | Failed(vtapName: string, exceptions: bv64)

  /** The granted controllers that are COMPLETE, with their remaining capacity. */
  function Candidates(ips: seq<string>, available: map<string, int>): seq<KVPair>
  {
    if ips == [] then []
    else
      var ip := ips[|ips| - 1];
      Candidates(ips[..|ips| - 1], available) + (if ip in available then [KVPair(ip, available[ip])] else [])
  }

  /**
   * One step of Go's insertion sort: `x`, placed after `s`, moves left past
   * every neighbour whose capacity is smaller, and stops behind the first
   * one that is at least as large.
   */
  function InsertDesc(s: seq<KVPair>, x: KVPair): (r: seq<KVPair>)
    ensures |r| == |s| + 1
  {
    if s == [] || s[|s| - 1].value >= x.value then s + [x]
    else InsertDesc(s[..|s| - 1], x) + [s[|s| - 1]]
  }

  /**
   * sort.Slice by descending capacity, as Go 1.19 and later run it on
   * slices of at most 12 elements: an insertion sort, which keeps
   * candidates of equal capacity in their current order. (Earlier Go
   * releases ran a gap-6 Shell pass first on 7 to 12 elements.)
   */
  function SortDesc(c: seq<KVPair>): (r: seq<KVPair>)
    ensures |r| == |c|
  {
    if c == [] then [] else InsertDesc(SortDesc(c[..|c| - 1]), c[|c| - 1])
  }

  predicate SortedDesc(s: seq<KVPair>)
  {
    forall i, j :: 0 <= i < j < |s| ==> s[i].value >= s[j].value
  }

  lemma {:induction false} InsertDescPerm(s: seq<KVPair>, x: KVPair)
    ensures multiset(InsertDesc(s, x)) == multiset(s) + multiset{x}
  {
    if !(s == [] || s[|s| - 1].value >= x.value) {
      var init := s[..|s| - 1];
      InsertDescPerm(init, x);
      assert s == init + [s[|s| - 1]];
    }
  }

  lemma {:induction false} InsertDescSorted(s: seq<KVPair>, x: KVPair)
    requires SortedDesc(s)
    ensures SortedDesc(InsertDesc(s, x))
  {
    if !(s == [] || s[|s| - 1].value >= x.value) {
      var init, last := s[..|s| - 1], s[|s| - 1];
      InsertDescSorted(init, x);
      InsertDescPerm(init, x);
      var r := InsertDesc(init, x);
      forall k | 0 <= k < |r|
        ensures r[k].value >= last.value
      {
        assert r[k] in multiset(init) + multiset{x};
        if r[k] in multiset(init) {
          var m :| 0 <= m < |init| && init[m] == r[k];
          assert s[m] == r[k];
        }
      }
    }
  }

  /** The sort keeps the candidates, each once, and orders them by descending capacity. */
  lemma {:induction false} SortDescSpec(c: seq<KVPair>)
    ensures multiset(SortDesc(c)) == multiset(c) && SortedDesc(SortDesc(c))
  {
    if c != [] {
      var init := c[..|c| - 1];
      SortDescSpec(init);
      InsertDescPerm(SortDesc(init), c[|c| - 1]);
      InsertDescSorted(SortDesc(init), c[|c| - 1]);
      assert c == init + [c[|c| - 1]];
    }
  }

  /** The sort puts first a candidate of largest capacity. */
  lemma SortDescHead(c: seq<KVPair>)
    requires c != []
    ensures exists m :: 0 <= m < |c| && c[m] == SortDesc(c)[0]
    ensures forall i :: 0 <= i < |c| ==> c[i].value <= SortDesc(c)[0].value
  {
    var s := SortDesc(c);
    SortDescSpec(c);
    assert s[0] in multiset(c);
    forall i | 0 <= i < |c|
      ensures c[i].value <= s[0].value
    {
      assert c[i] in multiset(s);
      var k :| 0 <= k < |s| && s[k] == c[i];
    }
  }

  /** A successful allocation clears the allocation-failed bit when it is set. */
  function ClearFailed(e: bv64): (r: bv64)
    ensures r == WithoutFailedBit(e)
  {
    if FailedBitSet(e) then
      XorClearsSetBit(e);
      FlipFailedBit(e)
    else
      UnsetBitStaysClear(e);
      e
  }

  datatype AllocState = AllocState(cands: seq<KVPair>, available: map<string, int>, results: seq<AllocResult>)

  /**
   * One waiting vtap: fail without candidates; else sort the candidates in
   * place by descending capacity, take the first and use one unit of it.
   * The order the sort leaves decides the ties of the next vtap.
   */
  function AllocStep(s: AllocState, v: VTap): AllocState
  {
    if s.cands == [] then
      s.(results := s.results + [Failed(v.name, SetFailedBit(v.exceptions))])
    else
      var sorted := SortDesc(s.cands);
      var key := sorted[0].key;
      AllocState(sorted[0 := KVPair(key, sorted[0].value - 1)],
                 s.available[key := IntOr0(s.available, key) - 1],
                 s.results + [Assigned(v.name, key, ClearFailed(v.exceptions))])
  }

  function AllocVTaps(s: AllocState, vtaps: seq<VTap>): AllocState
  {
    if vtaps == [] then s
    else AllocStep(AllocVTaps(s, vtaps[..|vtaps| - 1]), vtaps[|vtaps| - 1])
  }

  /** The allocation of one AZ: its candidates are read from the capacities left by the AZs before it. */
  function AllocAZ(pending: seq<VTap>, grants: seq<string>, available: map<string, int>): AllocState
  {
    AllocVTaps(AllocState(Candidates(grants, available), available, []), pending)
  }

  /** The AZs in the given order; each one's results follow those of the AZs before it. */
  function AllocAll(order: seq<string>, vtaps: seq<VTap>, controllers: seq<Controller>, azs: seq<AZRow>,
                    conns: seq<AZControllerConnection>, excludeIP: string): (map<string, int>, seq<AllocResult>)
  {
    if order == [] then (AvailableOf(controllers, vtaps, excludeIP), [])
    else
      var prev := AllocAll(order[..|order| - 1], vtaps, controllers, azs, conns, excludeIP);
      var az := order[|order| - 1];
      var s := AllocAZ(PendingIn(vtaps, az, excludeIP), GrantsFor(conns, azs, vtaps, excludeIP, az), prev.0);
      (s.available, prev.1 + s.results)
  }

  /** One more AZ allocates its waiting vtaps from what the AZs before it left, after their results. */
  lemma AllocAllSnoc(order: seq<string>, az: string, vtaps: seq<VTap>, controllers: seq<Controller>, azs: seq<AZRow>,
                     conns: seq<AZControllerConnection>, excludeIP: string)
    ensures var prev := AllocAll(order, vtaps, controllers, azs, conns, excludeIP);
      var s := AllocAZ(PendingIn(vtaps, az, excludeIP), GrantsFor(conns, azs, vtaps, excludeIP, az), prev.0);
      AllocAll(order + [az], vtaps, controllers, azs, conns, excludeIP) == (s.available, prev.1 + s.results)
  {
    assert (order + [az])[..|order|] == order;
  }

  /** The AZs with waiting vtaps. */
  predicate HasPending(vtaps: seq<VTap>, az: string, excludeIP: string)
  {
    PendingIn(vtaps, az, excludeIP) != []
  }

  /**
   * vtapControllerAlloc: returns the allocation results in the order the AZs
   * were visited (`order`, each AZ with waiting vtaps exactly once).
   */
  method VTapControllerAlloc(excludeIP: string, vtaps: seq<VTap>, controllers: seq<Controller>, azs: seq<AZRow>,
                             conns: seq<AZControllerConnection>)
    returns (results: seq<AllocResult>, ghost order: seq<string>)
    ensures forall az :: az in order <==> HasPending(vtaps, az, excludeIP)
    ensures NoDuplicates(order)
    ensures results == AllocAll(order, vtaps, controllers, azs, conns, excludeIP).1
  {
    var used, pending := SplitVTaps(vtaps, excludeIP);
    var available := Available(controllers, vtaps, used, excludeIP);
    var regionToAZs := GroupRegionAZs(azs, vtaps, pending, excludeIP);
    var grants := GrantControllers(conns, azs, vtaps, excludeIP, regionToAZs);
    results := [];
    order := [];
    var todo := pending.Keys;
    while todo != {}
      invariant todo <= pending.Keys
      invariant forall az :: az in order <==> az in pending && az !in todo
      invariant NoDuplicates(order)
      invariant (available, results) == AllocAll(order, vtaps, controllers, azs, conns, excludeIP)
      decreases todo
    {
      var az :| az in todo;
      assert pending[az] == PendingIn(vtaps, az, excludeIP) by {
        assert SeqOrEmpty(pending, az) == PendingIn(vtaps, az, excludeIP);
      }
      assert SeqOrEmpty(grants, az) == GrantsFor(conns, azs, vtaps, excludeIP, az);
      AllocAllSnoc(order, az, vtaps, controllers, azs, conns, excludeIP);
      var s := AllocInAZ(pending[az], SeqOrEmpty(grants, az), available);
      available, results := s.available, results + s.results;
      NoDuplicatesSnoc(order, az);
      order := order + [az];
      todo := todo - {az};
    }
  }

  predicate NoDuplicates(s: seq<string>)
  {
    forall i, j :: 0 <= i < j < |s| ==> s[i] != s[j]
  }

  lemma NoDuplicatesSnoc(s: seq<string>, x: string)
    requires NoDuplicates(s) && x !in s
    ensures NoDuplicates(s + [x])
  {
  }

  /** The first loop of vtapControllerAlloc: per-controller use counts and the waiting vtaps of each AZ. */
  method SplitVTaps(vtaps: seq<VTap>, excludeIP: string) returns (used: map<string, int>, pending: map<string, seq<VTap>>)
    ensures forall ip :: IntOr0(used, ip) == UsedCount(vtaps, ip, excludeIP)
    ensures forall az :: az in pending <==> HasPending(vtaps, az, excludeIP)
    ensures forall az :: SeqOrEmpty(pending, az) == PendingIn(vtaps, az, excludeIP)
  {
    used, pending := map[], map[];
    var i := 0;
    while i < |vtaps|
      invariant 0 <= i <= |vtaps|
      invariant forall ip :: IntOr0(used, ip) == UsedCount(vtaps[..i], ip, excludeIP)
      invariant forall az :: SeqOrEmpty(pending, az) == PendingIn(vtaps[..i], az, excludeIP)
      invariant forall az :: az in pending ==> pending[az] != []
    {
      var vtap := vtaps[i];
      if vtap.controllerIP != "" && vtap.controllerIP != excludeIP {
        used := used[vtap.controllerIP := IntOr0(used, vtap.controllerIP) + 1];
      } else {
        pending := pending[vtap.az := SeqOrEmpty(pending, vtap.az) + [vtap]];
      }
      forall ip ensures IntOr0(used, ip) == UsedCount(vtaps[..i + 1], ip, excludeIP) {
        SplitSnoc(vtaps, i, ip, excludeIP);
      }
      forall az ensures SeqOrEmpty(pending, az) == PendingIn(vtaps[..i + 1], az, excludeIP) {
        SplitSnoc(vtaps, i, az, excludeIP);
      }
      i := i + 1;
    }
    assert vtaps[..|vtaps|] == vtaps;
  }

  /** The grants after one more connection, in each of the loop's three cases. */
  lemma GrantStep(conns: seq<AZControllerConnection>, i: nat, azs: seq<AZRow>, vtaps: seq<VTap>, excludeIP: string,
                  regionToAZs: map<string, seq<string>>, prev: map<string, seq<string>>, grants: map<string, seq<string>>)
    requires i < |conns|
    requires conns[i].region in regionToAZs <==> RegionAZs(azs, vtaps, excludeIP, conns[i].region) != []
    requires SeqOrEmpty(regionToAZs, conns[i].region) == RegionAZs(azs, vtaps, excludeIP, conns[i].region)
    requires forall az :: SeqOrEmpty(prev, az) == GrantsFor(conns[..i], azs, vtaps, excludeIP, az)
    requires conns[i].region !in regionToAZs ==> grants == prev
    requires conns[i].region in regionToAZs && conns[i].az == "ALL" ==>
      forall az :: SeqOrEmpty(grants, az) == SeqOrEmpty(prev, az) + Occurrences(regionToAZs[conns[i].region], conns[i].controllerIP, az)
    requires conns[i].region in regionToAZs && conns[i].az != "ALL" ==>
      grants == prev[conns[i].az := SeqOrEmpty(prev, conns[i].az) + [conns[i].controllerIP]]
    ensures forall az :: SeqOrEmpty(grants, az) == GrantsFor(conns[..i + 1], azs, vtaps, excludeIP, az)
  {
    forall az ensures SeqOrEmpty(grants, az) == GrantsFor(conns[..i + 1], azs, vtaps, excludeIP, az) {
      GrantsForSnoc(conns, i, azs, vtaps, excludeIP, az);
    }
  }

  /** One more connection adds what it grants after the grants before it. */
  lemma GrantsForSnoc(conns: seq<AZControllerConnection>, i: nat, azs: seq<AZRow>, vtaps: seq<VTap>, excludeIP: string, az: string)
    requires i < |conns|
    ensures GrantsFor(conns[..i + 1], azs, vtaps, excludeIP, az) ==
      GrantsFor(conns[..i], azs, vtaps, excludeIP, az) + ConnGrants(conns[i], azs, vtaps, excludeIP, az)
  {
    assert conns[..i + 1][..i] == conns[..i];
  }

  lemma SplitSnoc(vtaps: seq<VTap>, i: nat, key: string, excludeIP: string)
    requires i < |vtaps|
    ensures var v := vtaps[i];
      UsedCount(vtaps[..i + 1], key, excludeIP) ==
        UsedCount(vtaps[..i], key, excludeIP) + (if UsesController(v, excludeIP) && v.controllerIP == key then 1 else 0)
    ensures var v := vtaps[i];
      PendingIn(vtaps[..i + 1], key, excludeIP) ==
        PendingIn(vtaps[..i], key, excludeIP) + (if !UsesController(v, excludeIP) && v.az == key then [v] else [])
  {
    assert vtaps[..i + 1][..i] == vtaps[..i];
  }

  /** The second loop: the remaining capacity of each COMPLETE controller. */
  method Available(controllers: seq<Controller>, vtaps: seq<VTap>, used: map<string, int>, excludeIP: string)
    returns (available: map<string, int>)
    requires forall ip :: IntOr0(used, ip) == UsedCount(vtaps, ip, excludeIP)
    ensures available == AvailableOf(controllers, vtaps, excludeIP)
  {
    available := map[];
    var i := 0;
    while i < |controllers|
      invariant 0 <= i <= |controllers|
      invariant available == AvailableOf(controllers[..i], vtaps, excludeIP)
    {
      assert controllers[..i + 1][..i] == controllers[..i];
      var controller := controllers[i];
      if controller.state == HOST_STATE_COMPLETE {
        available := available[controller.ip := controller.vtapMax];
        if controller.ip in used {
          available := available[controller.ip := available[controller.ip] - used[controller.ip]];
        }
        assert IntOr0(used, controller.ip) == UsedCount(vtaps, controller.ip, excludeIP);
      }
      i := i + 1;
    }
    assert controllers[..|controllers|] == controllers;
  }

  /** The third loop: the AZs with waiting vtaps, grouped by region. */
  method GroupRegionAZs(azs: seq<AZRow>, vtaps: seq<VTap>, pending: map<string, seq<VTap>>, excludeIP: string)
    returns (regionToAZs: map<string, seq<string>>)
    requires forall az :: az in pending <==> HasPending(vtaps, az, excludeIP)
    ensures forall r :: r in regionToAZs <==> RegionAZs(azs, vtaps, excludeIP, r) != []
    ensures forall r :: SeqOrEmpty(regionToAZs, r) == RegionAZs(azs, vtaps, excludeIP, r)
  {
    regionToAZs := map[];
    var i := 0;
    while i < |azs|
      invariant 0 <= i <= |azs|
      invariant forall r :: r in regionToAZs <==> RegionAZs(azs[..i], vtaps, excludeIP, r) != []
      invariant forall r :: SeqOrEmpty(regionToAZs, r) == RegionAZs(azs[..i], vtaps, excludeIP, r)
    {
      assert azs[..i + 1][..i] == azs[..i];
      var az := azs[i];
      // the rows are those of the AZs with waiting vtaps
      if az.lcuuid in pending {
        regionToAZs := regionToAZs[az.region := SeqOrEmpty(regionToAZs, az.region) + [az.lcuuid]];
      }
      i := i + 1;
    }
    assert azs[..|azs|] == azs;
  }

  /** The fourth loop: the controller IPs granted to each AZ. */
  method GrantControllers(conns: seq<AZControllerConnection>, azs: seq<AZRow>, vtaps: seq<VTap>, excludeIP: string,
                          regionToAZs: map<string, seq<string>>)
    returns (grants: map<string, seq<string>>)
    requires forall r :: r in regionToAZs <==> RegionAZs(azs, vtaps, excludeIP, r) != []
    requires forall r :: SeqOrEmpty(regionToAZs, r) == RegionAZs(azs, vtaps, excludeIP, r)
    ensures forall az :: SeqOrEmpty(grants, az) == GrantsFor(conns, azs, vtaps, excludeIP, az)
  {
    grants := map[];
    var i := 0;
    while i < |conns|
      invariant 0 <= i <= |conns|
      invariant forall az :: SeqOrEmpty(grants, az) == GrantsFor(conns[..i], azs, vtaps, excludeIP, az)
    {
      var conn := conns[i];
      ghost var prev := grants;
      // the rows are those of the regions with waiting vtaps
      if conn.region in regionToAZs {
        if conn.az == "ALL" {
          grants := GrantToAll(grants, regionToAZs[conn.region], conn.controllerIP);
        } else {
          grants := grants[conn.az := SeqOrEmpty(grants, conn.az) + [conn.controllerIP]];
        }
      }
      GrantStep(conns, i, azs, vtaps, excludeIP, regionToAZs, prev, grants);
      i := i + 1;
    }
    assert conns[..|conns|] == conns;
  }

  /** An "ALL" connection: the controller is appended to every AZ of the region. */
  method GrantToAll(grants: map<string, seq<string>>, regionAZs: seq<string>, ip: string) returns (r: map<string, seq<string>>)
    ensures forall az :: SeqOrEmpty(r, az) == SeqOrEmpty(grants, az) + Occurrences(regionAZs, ip, az)
  {
    r := grants;
    var j := 0;
    while j < |regionAZs|
      invariant 0 <= j <= |regionAZs|
      invariant forall az :: SeqOrEmpty(r, az) == SeqOrEmpty(grants, az) + Occurrences(regionAZs[..j], ip, az)
    {
      var a := regionAZs[j];
      assert regionAZs[..j + 1] == regionAZs[..j] + [a];
      GrantOneStep(r, grants, regionAZs[..j], a, ip);
      r := r[a := SeqOrEmpty(r, a) + [ip]];
      j := j + 1;
    }
    assert regionAZs[..|regionAZs|] == regionAZs;
  }

  /** Appending the controller to one more AZ of the region keeps the loop's invariant at every AZ. */
  lemma GrantOneStep(r: map<string, seq<string>>, grants: map<string, seq<string>>, done: seq<string>, a: string, ip: string)
    requires forall az :: SeqOrEmpty(r, az) == SeqOrEmpty(grants, az) + Occurrences(done, ip, az)
    ensures forall az :: SeqOrEmpty(r[a := SeqOrEmpty(r, a) + [ip]], az) == SeqOrEmpty(grants, az) + Occurrences(done + [a], ip, az)
  {
    forall az
      ensures SeqOrEmpty(r[a := SeqOrEmpty(r, a) + [ip]], az) == SeqOrEmpty(grants, az) + Occurrences(done + [a], ip, az)
    {
      GrantOneStepAt(r, grants, done, a, ip, az);
    }
  }

  lemma GrantOneStepAt(r: map<string, seq<string>>, grants: map<string, seq<string>>, done: seq<string>, a: string, ip: string,
                       az: string)
    requires SeqOrEmpty(r, az) == SeqOrEmpty(grants, az) + Occurrences(done, ip, az)
    ensures SeqOrEmpty(r[a := SeqOrEmpty(r, a) + [ip]], az) == SeqOrEmpty(grants, az) + Occurrences(done + [a], ip, az)
  {
    OccurrencesSnoc(done, a, ip, az);
  }

  lemma OccurrencesSnoc(list: seq<string>, a: string, ip: string, az: string)
    ensures Occurrences(list + [a], ip, az) == Occurrences(list, ip, az) + (if a == az then [ip] else [])
  {
    assert (list + [a])[..|list|] == list;
  }

  /** The last loop's body for one AZ. */
  method AllocInAZ(pending: seq<VTap>, grants: seq<string>, available: map<string, int>) returns (s: AllocState)
    ensures s == AllocAZ(pending, grants, available)
  {
    var cands := BuildCandidates(grants, available);
    var avail := available;
    var results: seq<AllocResult> := [];
    var i := 0;
    while i < |pending|
      invariant 0 <= i <= |pending|
      invariant AllocState(cands, avail, results) == AllocVTaps(AllocState(Candidates(grants, available), available, []), pending[..i])
    {
      assert pending[..i + 1][..i] == pending[..i];
      var vtap := pending[i];
      cands, avail, results := AllocOne(cands, avail, results, vtap);
      i := i + 1;
    }
    assert pending[..|pending|] == pending;
    s := AllocState(cands, avail, results);
  }

  /** One waiting vtap of the last loop: it fails without candidates, else sorts them and takes the first. */
  method AllocOne(cands: seq<KVPair>, avail: map<string, int>, results: seq<AllocResult>, vtap: VTap)
    returns (cands': seq<KVPair>, avail': map<string, int>, results': seq<AllocResult>)
    ensures AllocState(cands', avail', results') == AllocStep(AllocState(cands, avail, results), vtap)
  {
    cands', avail' := cands, avail;
    if |cands| == 0 {
      results' := results + [Failed(vtap.name, SetFailedBit(vtap.exceptions))];
    } else {
      var sorted := SortCandidates(cands);
      var key := sorted[0].key;
      cands' := sorted[0 := KVPair(key, sorted[0].value - 1)];
      avail' := avail[key := IntOr0(avail, key) - 1];
      results' := results + [Assigned(vtap.name, key, ClearFailed(vtap.exceptions))];
    }
  }

  method BuildCandidates(ips: seq<string>, available: map<string, int>) returns (cands: seq<KVPair>)
    ensures cands == Candidates(ips, available)
  {
    cands := [];
    var i := 0;
    while i < |ips|
      invariant 0 <= i <= |ips|
      invariant cands == Candidates(ips[..i], available)
    {
      assert ips[..i + 1][..i] == ips[..i];
      if ips[i] in available {
        cands := cands + [KVPair(ips[i], available[ips[i]])];
      }
      i := i + 1;
    }
    assert ips[..|ips|] == ips;
  }

  /** sort.Slice by descending capacity: Go's insertion sort, on a copy of the slice. */
  method SortCandidates(cands: seq<KVPair>) returns (s: seq<KVPair>)
    ensures s == SortDesc(cands)
  {
    s := [];
    var i := 0;
    while i < |cands|
      invariant 0 <= i <= |cands|
      invariant s == SortDesc(cands[..i])
    {
      assert cands[..i + 1][..i] == cands[..i];
      s := InsertLast(s, cands[i]);
      i := i + 1;
    }
    assert cands[..|cands|] == cands;
  }

  /** The inner loop of the insertion sort: `x`, behind `p`, is swapped left past every smaller neighbour. */
  method InsertLast(p: seq<KVPair>, x: KVPair) returns (t: seq<KVPair>)
    ensures t == InsertDesc(p, x)
  {
    t := p + [x];
    var j := |p|;
    while j > 0 && t[j].value > t[j - 1].value
      invariant 0 <= j <= |p| && |t| == |p| + 1 && t[j] == x
      invariant InsertDesc(p, x) == InsertDesc(t[..j], x) + t[j + 1..]
      decreases j
    {
      InsertStep(t[..j], x, t[j + 1..]);
      ghost var before := t;
      t := t[j - 1 := t[j]][j := t[j - 1]];
      assert t[..j - 1] == before[..j][..j - 1];
      assert t[j..] == [before[j - 1]] + before[j + 1..];
      j := j - 1;
    }
    assert t == t[..j] + [x] + t[j + 1..];
  }

  /** One swap of the insertion: the element before `x` moves behind it. */
  lemma InsertStep(p: seq<KVPair>, x: KVPair, q: seq<KVPair>)
    requires p != [] && p[|p| - 1].value < x.value
    ensures InsertDesc(p, x) + q == InsertDesc(p[..|p| - 1], x) + ([p[|p| - 1]] + q)
  {
  }

  // ---------------------------------------------------------------- allocation properties

  /**
   * The capacities are those of the COMPLETE controllers, each VTapMax less
   * the vtaps that keep it (controller IPs are unique).
   */
  lemma {:induction false} AvailableOfExact(controllers: seq<Controller>, vtaps: seq<VTap>, excludeIP: string)
    requires forall i, j :: 0 <= i < j < |controllers| ==> controllers[i].ip != controllers[j].ip
    ensures forall ip :: ip in AvailableOf(controllers, vtaps, excludeIP) <==>
      exists c :: c in controllers && c.state == HOST_STATE_COMPLETE && c.ip == ip
    ensures forall c :: c in controllers && c.state == HOST_STATE_COMPLETE ==>
      AvailableOf(controllers, vtaps, excludeIP)[c.ip] == c.vtapMax - UsedCount(vtaps, c.ip, excludeIP)
  {
    if controllers != [] {
      var init := controllers[..|controllers| - 1];
      var last := controllers[|controllers| - 1];
      AvailableOfExact(init, vtaps, excludeIP);
      var prev := AvailableOf(init, vtaps, excludeIP);
      var avail := AvailableOf(controllers, vtaps, excludeIP);
      assert avail == if last.state == HOST_STATE_COMPLETE
        then prev[last.ip := last.vtapMax - UsedCount(vtaps, last.ip, excludeIP)] else prev;
      forall c | c in controllers ensures c in init || c == last {
        var i :| 0 <= i < |controllers| && controllers[i] == c;
        if i < |init| {
          assert init[i] == c;
        }
      }
      forall c | c in init ensures c.ip != last.ip {
        var i :| 0 <= i < |init| && init[i] == c;
        assert controllers[i] == c;
      }
    }
  }

  /** A controller is granted to an AZ iff a connection names the AZ, or is "ALL" for a region holding the AZ. */
  lemma {:induction false} GrantsForExact(conns: seq<AZControllerConnection>, azs: seq<AZRow>, vtaps: seq<VTap>,
                                          excludeIP: string, az: string)
    ensures forall ip :: ip in GrantsFor(conns, azs, vtaps, excludeIP, az) <==>
      exists c :: c in conns && c.controllerIP == ip && RegionAZs(azs, vtaps, excludeIP, c.region) != [] &&
        ((c.az == "ALL" && az in RegionAZs(azs, vtaps, excludeIP, c.region)) || (c.az != "ALL" && c.az == az))
  {
    if conns != [] {
      var init := conns[..|conns| - 1];
      var c := conns[|conns| - 1];
      GrantsForExact(init, azs, vtaps, excludeIP, az);
      OccurrencesExact(RegionAZs(azs, vtaps, excludeIP, c.region), c.controllerIP, az);
      assert conns == init + [c];
    }
  }

  lemma {:induction false} OccurrencesExact(list: seq<string>, ip: string, az: string)
    ensures forall x :: x in Occurrences(list, ip, az) <==> x == ip && az in list
  {
    if list != [] {
      OccurrencesExact(list[..|list| - 1], ip, az);
      assert list == list[..|list| - 1] + [list[|list| - 1]];
    }
  }

  /**
   * An "ALL" connection grants its controller to every AZ with waiting vtaps
   * in its region.
   */
  lemma AllGrantsEveryAZ(conns: seq<AZControllerConnection>, azs: seq<AZRow>, vtaps: seq<VTap>, excludeIP: string,
                         c: AZControllerConnection, a: AZRow)
    requires c in conns && c.az == "ALL" && a in azs && a.region == c.region && HasPending(vtaps, a.lcuuid, excludeIP)
    ensures c.controllerIP in GrantsFor(conns, azs, vtaps, excludeIP, a.lcuuid)
  {
    RegionAZsExact(azs, vtaps, excludeIP, c.region);
    GrantsForExact(conns, azs, vtaps, excludeIP, a.lcuuid);
  }

  lemma {:induction false} RegionAZsExact(azs: seq<AZRow>, vtaps: seq<VTap>, excludeIP: string, region: string)
    ensures forall az :: az in RegionAZs(azs, vtaps, excludeIP, region) <==>
      (exists a :: a in azs && a.region == region && a.lcuuid == az) && HasPending(vtaps, az, excludeIP)
  {
    if azs != [] {
      var init := azs[..|azs| - 1];
      RegionAZsExact(init, vtaps, excludeIP, region);
      assert azs == init + [azs[|azs| - 1]];
    }
  }

  /**
   * One allocation: with no candidate the vtap fails with the bit set and
   * nothing else changes; otherwise it gets a candidate of largest remaining
   * capacity, which goes first in the re-sorted candidates and drops by one,
   * as does the controller's capacity; the candidates are otherwise kept and
   * the bit is cleared.
   */
  lemma AllocStepSpec(s: AllocState, v: VTap)
    ensures var s' := AllocStep(s, v);
      |s'.results| == |s.results| + 1 && s'.results[..|s.results|] == s.results && |s'.cands| == |s.cands| &&
      (s.cands == [] ==>
        s'.cands == s.cands && s'.available == s.available &&
        s'.results[|s.results|] == Failed(v.name, SetFailedBit(v.exceptions)) &&
        FailedBitSet(s'.results[|s.results|].exceptions)) &&
      (s.cands != [] ==>
        exists m :: 0 <= m < |s.cands| &&
          (forall i :: 0 <= i < |s.cands| ==> s.cands[i].value <= s.cands[m].value) &&
          s'.cands[0] == KVPair(s.cands[m].key, s.cands[m].value - 1) &&
          multiset(s'.cands[1..]) + multiset{s.cands[m]} == multiset(s.cands) &&
          s'.available == s.available[s.cands[m].key := IntOr0(s.available, s.cands[m].key) - 1] &&
          s'.results[|s.results|] == Assigned(v.name, s.cands[m].key, WithoutFailedBit(v.exceptions)))
  {
    if s.cands != [] {
      var m := AllocTaken(s, v);
    }
  }

  /** The sort's first candidate is a largest one, and the others follow it. */
  lemma SortedTaken(c: seq<KVPair>) returns (m: nat)
    requires c != []
    ensures m < |c| && c[m] == SortDesc(c)[0] && forall i :: 0 <= i < |c| ==> c[i].value <= c[m].value
    ensures multiset(SortDesc(c)[1..]) + multiset{c[m]} == multiset(c)
  {
    var sorted := SortDesc(c);
    SortDescHead(c);
    SortDescSpec(c);
    m :| 0 <= m < |c| && c[m] == sorted[0];
    assert sorted == [sorted[0]] + sorted[1..];
  }

  /** The candidate an allocation step takes: a largest one, first in the sorted list, the others behind it. */
  lemma AllocTaken(s: AllocState, v: VTap) returns (m: nat)
    requires s.cands != []
    ensures m < |s.cands| && forall i :: 0 <= i < |s.cands| ==> s.cands[i].value <= s.cands[m].value
    ensures var s' := AllocStep(s, v);
      s'.cands[0] == KVPair(s.cands[m].key, s.cands[m].value - 1) &&
      multiset(s'.cands[1..]) + multiset{s.cands[m]} == multiset(s.cands) &&
      s'.available == s.available[s.cands[m].key := IntOr0(s.available, s.cands[m].key) - 1] &&
      s'.results == s.results + [Assigned(v.name, s.cands[m].key, WithoutFailedBit(v.exceptions))]
  {
    var sorted := SortDesc(s.cands);
    m := SortedTaken(s.cands);
    var key := sorted[0].key;
    var cands' := sorted[0 := KVPair(key, sorted[0].value - 1)];
    assert AllocStep(s, v).cands == cands';
    assert cands'[1..] == sorted[1..];
  }

  /** Sorting two candidates swaps them only when the second has the larger capacity. */
  lemma SortTwo(x: KVPair, y: KVPair)
    ensures SortDesc([x, y]) == if y.value > x.value then [y, x] else [x, y]
  {
    assert [x, y][..1] == [x] && [x][..0] == [];
    assert SortDesc([x]) == [x];
    assert SortDesc([x, y]) == InsertDesc([x], y);
    if y.value > x.value {
      assert InsertDesc([x], y) == InsertDesc([], y) + [x];
    }
  }

  /** With two candidates, a vtap goes to the first of the sorted pair, which loses one unit. */
  lemma AllocPair(s: AllocState, v: VTap)
    requires |s.cands| == 2
    ensures var x, y := s.cands[0], s.cands[1];
      var top, other := (if y.value > x.value then y else x), (if y.value > x.value then x else y);
      var s' := AllocStep(s, v);
      s'.cands == [KVPair(top.key, top.value - 1), other] &&
      s'.results == s.results + [Assigned(v.name, top.key, ClearFailed(v.exceptions))]
  {
    var x, y := s.cands[0], s.cands[1];
    assert s.cands == [x, y];
    SortTwo(x, y);
    var sorted := SortDesc(s.cands);
    assert sorted == if y.value > x.value then [y, x] else [x, y];
    var top := sorted[0];
    assert AllocStep(s, v).cands == sorted[0 := KVPair(top.key, top.value - 1)];
  }

  /**
   * Ties follow the order the previous sort left: two controllers of equal
   * capacity and three waiting vtaps go to the first, then the second (now
   * larger), then the second again, which the sort moved in front.
   */
  lemma TiesFollowSortedOrder(a: string, b: string, n: int, available: map<string, int>, v1: VTap, v2: VTap, v3: VTap)
    ensures var s := AllocState([KVPair(a, n), KVPair(b, n)], available, []);
      var r := AllocVTaps(s, [v1, v2, v3]).results;
      |r| == 3 && r[0].Assigned? && r[0].controllerIP == a && r[1].Assigned? && r[1].controllerIP == b &&
      r[2].Assigned? && r[2].controllerIP == b
  {
    var s := AllocState([KVPair(a, n), KVPair(b, n)], available, []);
    AllocPair(s, v1);
    var s1 := AllocStep(s, v1);
    assert s1.cands == [KVPair(a, n - 1), KVPair(b, n)];
    AllocPair(s1, v2);
    var s2 := AllocStep(s1, v2);
    assert s2.cands == [KVPair(b, n - 1), KVPair(a, n - 1)];
    AllocPair(s2, v3);
    var s3 := AllocStep(s2, v3);
    assert s3.results == [Assigned(v1.name, a, ClearFailed(v1.exceptions)), Assigned(v2.name, b, ClearFailed(v2.exceptions)),
                          Assigned(v3.name, b, ClearFailed(v3.exceptions))];
    AllocThree(s, v1, v2, v3);
  }

  lemma AllocThree(s: AllocState, v1: VTap, v2: VTap, v3: VTap)
    ensures AllocVTaps(s, [v1, v2, v3]) == AllocStep(AllocStep(AllocStep(s, v1), v2), v3)
  {
    AllocVTapsSnoc(s, [], v1);
    AllocVTapsSnoc(s, [v1], v2);
    AllocVTapsSnoc(s, [v1, v2], v3);
    assert [] + [v1] == [v1] && [v1] + [v2] == [v1, v2] && [v1, v2] + [v3] == [v1, v2, v3];
  }

  /** Allocating one more vtap is one more step after the vtaps before it. */
  lemma AllocVTapsSnoc(s: AllocState, vs: seq<VTap>, v: VTap)
    ensures AllocVTaps(s, vs + [v]) == AllocStep(AllocVTaps(s, vs), v)
  {
    assert (vs + [v])[..|vs|] == vs;
  }

  /**
   * Within an AZ, every waiting vtap gets a result in order, and either all
   * of them fail (no candidate controller) or all of them are assigned:
   * allocation never checks that capacity is left.
   */
  lemma {:induction false} AllocVTapsAllOrNothing(s: AllocState, vtaps: seq<VTap>)
    requires s.results == []
    ensures var s' := AllocVTaps(s, vtaps);
      |s'.results| == |vtaps| && |s'.cands| == |s.cands| &&
      (forall i :: 0 <= i < |vtaps| ==> s'.results[i].vtapName == vtaps[i].name) &&
      (s.cands == [] ==> forall i :: 0 <= i < |vtaps| ==> s'.results[i].Failed?) &&
      (s.cands != [] ==> forall i :: 0 <= i < |vtaps| ==> s'.results[i].Assigned?)
  {
    if vtaps != [] {
      var init := vtaps[..|vtaps| - 1];
      var v := vtaps[|vtaps| - 1];
      AllocVTapsAllOrNothing(s, init);
      var prev := AllocVTaps(s, init);
      AllocStepShape(prev, v);
      var r := AllocVTaps(s, vtaps).results;
      assert r == AllocStep(prev, v).results;
      assert |prev.results| == |init| && |prev.cands| == |s.cands|;
      forall i | 0 <= i < |vtaps|
        ensures r[i].vtapName == vtaps[i].name
        ensures s.cands == [] ==> r[i].Failed?
        ensures s.cands != [] ==> r[i].Assigned?
      {
        if i < |init| {
          assert r[..|prev.results|][i] == r[i];
          assert vtaps[i] == init[i];
        }
      }
    }
  }

  /** One step appends one result for the vtap, of the kind the candidates decide, and keeps the candidate count. */
  lemma AllocStepShape(s: AllocState, v: VTap)
    ensures var s' := AllocStep(s, v);
      |s'.results| == |s.results| + 1 && s'.results[..|s.results|] == s.results && |s'.cands| == |s.cands| &&
      s'.results[|s.results|].vtapName == v.name &&
      (s.cands == [] ==> s'.results[|s.results|].Failed?) &&
      (s.cands != [] ==> s'.results[|s.results|].Assigned?)
  {
    AllocStepSpec(s, v);
  }
}
