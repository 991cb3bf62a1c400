/**
 * The ClickHouse disk monitor of the ingester: every checkInterval ticks it
 * refreshes its connections, reads the deepflow data disks of each server
 * and, when every data disk is over the usage and under the free-space
 * thresholds, drops (or, with an S3 disk, moves) the oldest partition of
 * every table that has more than one.
 *
 * The servers are an environment `Env`: ping and connect results, the rows
 * of system.disks and system.parts, and whether each ALTER succeeds.
 */
module CkMonitor {
  import opened Wrappers
  import opened FixedWidth
  import opened Text

  /** Disks holding deepflow data are named with this prefix. */
  const DF_DISK_PREFIX := "path_"
  /** Object-storage disks are named with this prefix. */
  const DF_S3_DISK_PREFIX := "s3"
  const NO_DATA_DISK_ERROR := "can not find any deepflow data disk like 'path_'"

  /** The disk-monitor section of the ingester configuration (Go ints). */
  datatype DiskMonitorConfig = DiskMonitorConfig(checkInterval: i64, usedPercent: i64, freeSpace: i64)

  /** A row of system.disks. */
  datatype DiskInfo = DiskInfo(name: string, path: string, freeSpace: u64, totalSpace: u64, keepFreeSpace: u64)

  datatype DiskRow = DiskScanned(info: DiskInfo) | DiskScanError

  /** A table's oldest partition; times are seconds. */
  datatype Partition = Partition(partition: string, database: string, table: string,
                                 minTime: int, maxTime: int, rows: u64, bytesOnDisk: u64)

  /** A row of the per-table partition summary: its oldest partition and its number of partitions. */
  datatype PartRow = PartScanned(p: Partition, count: u64) | PartScanError(error: string)

  /** A connection to a ClickHouse server. */
  datatype Conn = Conn(addr: string, serial: nat)

  datatype Statement = DropPartition(conn: Conn, p: Partition) | MovePartition(conn: Conn, p: Partition, volume: string)

  datatype Env = Env(
    ping: Conn -> bool,
    connect: string -> Option<Conn>,
    disks: Conn -> Result<seq<DiskRow>>,
    parts: Conn -> Result<seq<PartRow>>,
    execOk: Statement -> bool)

  /** FreeSpace << 30 on a Go int: gigabytes to bytes, wrapping only beyond 2^33 GB. */
  function FreeSpaceThreshold(freeSpaceGB: i64): (r: i64)
    ensures 0 <= freeSpaceGB < 0x2_0000_0000 ==> r == freeSpaceGB * 0x4000_0000
  {
    WrapI64(freeSpaceGB * 0x4000_0000)
  }

  /* ---------------- disk usage ---------------- */

  /** usage exactly as computed: `totalSpace-freeSpace` is a uint64 subtraction. */
  function UsageAsWritten(d: DiskInfo): u64
    requires d.totalSpace > 0
  {
    Percent(WrapU64(WrapU64(d.totalSpace - d.freeSpace) * 100 + d.totalSpace - 1), d.totalSpace)
  }

  /** uint64 division by a non-zero divisor. */
  function Percent(x: u64, t: u64): (q: u64)
    requires t > 0
  {
    DivLe(x, t);
    x / t
  }

  /** The space in use, never negative: a disk reporting more free than total space uses none. */
  function Used(d: DiskInfo): (r: u64)
    ensures r <= d.totalSpace
  {
    if d.freeSpace >= d.totalSpace then 0 else d.totalSpace - d.freeSpace
  }

  /** usage with the subtraction guarded: the percentage of the disk in use, rounded up. */
  function Usage(d: DiskInfo): u64
    requires d.totalSpace > 0
  {
    Percent(WrapU64(Used(d) * 100 + d.totalSpace - 1), d.totalSpace)
  }

  predicate DiskNeedsCleanAsWritten(usedPercent: i64, freeSpace: i64, d: DiskInfo)
  {
    d.totalSpace != 0 && UsageAsWritten(d) > WrapU64(usedPercent) && d.freeSpace < WrapU64(freeSpace)
  }

  /** isDiskNeedClean: never for a disk of total size 0; otherwise over the usage and under the free-space threshold. */
  predicate DiskNeedsClean(usedPercent: i64, freeSpace: i64, d: DiskInfo)
  {
    d.totalSpace != 0 && Usage(d) > WrapU64(usedPercent) && d.freeSpace < WrapU64(freeSpace)
  }

  lemma DivLe(x: nat, t: nat)
    requires t >= 1
    ensures x / t <= x
  {
    MulLe(1, t, x / t);
  }

  lemma MulLe(a: int, b: int, c: nat)
    requires a <= b
    ensures a * c <= b * c
  {
  }

  /**
   * The usage is the ceiling of used·100/total, and so at most 100, as long
   * as used·100 + total does not leave uint64.
   */
  lemma {:induction false} UsageIsCeiling(d: DiskInfo)
    requires d.totalSpace > 0 && Used(d) * 100 + d.totalSpace - 1 < U64_MODULUS
    ensures Usage(d) * d.totalSpace >= Used(d) * 100
    ensures (Usage(d) - 1) * d.totalSpace < Used(d) * 100
    ensures Usage(d) <= 100
  {
    var a := Used(d) * 100;
    var t := d.totalSpace;
    var q := Usage(d);
    assert q == (a + t - 1) / t;
    var r := (a + t - 1) % t;
    assert a + t - 1 == q * t + r && 0 <= r < t;
    assert (q - 1) * t == q * t - t;
    if q > 100 {
      MulLe(101, q, t);
    }
  }

  /**
   * A disk reporting 101 bytes free out of 100 is 0% used, but the uint64
   * subtraction wraps and the computed usage is about 1.8·10^17 percent, so
   * the disk is cleaned as if full.
   */
  lemma UsageUnderflow()
    ensures var d := DiskInfo("path_default", "/data/", 101, 100, 0);
      UsageAsWritten(d) == 184467440737095516 && Usage(d) == 0 &&
      DiskNeedsCleanAsWritten(80, FreeSpaceThreshold(50), d) && !DiskNeedsClean(80, FreeSpaceThreshold(50), d)
  {
    var d := DiskInfo("path_default", "/data/", 101, 100, 0);
    assert WrapU64(d.totalSpace - d.freeSpace) == 0xffff_ffff_ffff_ffff;
    assert WrapU64(0xffff_ffff_ffff_ffff * 100 + 99) == 0xffff_ffff_ffff_ffff;
  }

  /**
   * The corrected rule and the rule as written part only on a disk that
   * reports more free than total space: otherwise the uint64 subtraction
   * does not wrap and the two usages are the same number.
   */
  lemma AsWrittenAgreesUnlessOverfull(usedPercent: i64, freeSpace: i64, d: DiskInfo)
    requires d.freeSpace <= d.totalSpace
    ensures DiskNeedsCleanAsWritten(usedPercent, freeSpace, d) <==> DiskNeedsClean(usedPercent, freeSpace, d)
  {
    if d.totalSpace > 0 {
      assert WrapU64(d.totalSpace - d.freeSpace) == Used(d);
      assert UsageAsWritten(d) == Usage(d);
    }
  }

  /** isDisksNeedClean: false for no disks, otherwise every disk needs cleaning. */
  predicate DisksNeedClean(usedPercent: i64, freeSpace: i64, disks: seq<DiskInfo>)
  {
    |disks| > 0 && forall i :: 0 <= i < |disks| ==> DiskNeedsClean(usedPercent, freeSpace, disks[i])
  }

  /* ---------------- reading system.disks ---------------- */

  /** The result of getDFDiskInfos: the data disks, whether an S3 disk exists, and the error. */
  datatype DiskScan = DiskScan(disks: seq<DiskInfo>, hasS3: bool, err: Option<string>)

  predicate IsDataDisk(row: DiskRow)
  {
    row.DiskScanned? && HasPrefix(row.info.name, DF_DISK_PREFIX)
  }

  predicate IsS3Disk(row: DiskRow)
  {
    row.DiskScanned? && !HasPrefix(row.info.name, DF_DISK_PREFIX) && HasPrefix(row.info.name, DF_S3_DISK_PREFIX)
  }

  /** The deepflow data disks among the rows, in order. */
  function DataDisks(rows: seq<DiskRow>): (r: seq<DiskInfo>)
    ensures forall d :: d in r <==> DiskScanned(d) in rows && HasPrefix(d.name, DF_DISK_PREFIX)
  {
    if rows == [] then []
    else
      var init := rows[..|rows| - 1];
      var last := rows[|rows| - 1];
      assert rows == init + [last];
      DataDisks(init) + (if IsDataDisk(last) then [last.info] else [])
  }

  predicate HasS3Disk(rows: seq<DiskRow>)
  {
    exists i :: 0 <= i < |rows| && IsS3Disk(rows[i])
  }

  predicate HasScanError(rows: seq<DiskRow>)
  {
    exists i :: 0 <= i < |rows| && rows[i].DiskScanError?
  }

  /**
   * getDFDiskInfos: a failed query returns its error; a row that cannot be
   * scanned gives no disks and no error; otherwise the data disks, whether
   * an S3 disk was seen, and an error when there is no data disk.
   */
  function DFDiskInfos(query: Result<seq<DiskRow>>): DiskScan
  {
    if query.Err? then DiskScan([], false, Some(query.error))
    else if HasScanError(query.value) then DiskScan([], false, None)
    else
      var disks := DataDisks(query.value);
      DiskScan(disks, HasS3Disk(query.value), if disks == [] then Some(NO_DATA_DISK_ERROR) else None)
  }

  /** One more disk row: a scan error fails the whole scan; otherwise the row extends the disks and the S3 flag. */
  lemma DiskScanStep(rows: seq<DiskRow>, k: nat)
    requires k < |rows|
    ensures rows[k].DiskScanError? ==> HasScanError(rows)
    ensures !HasScanError(rows[..k]) && !rows[k].DiskScanError? ==>
      !HasScanError(rows[..k + 1]) &&
      DataDisks(rows[..k + 1]) == DataDisks(rows[..k]) + (if IsDataDisk(rows[k]) then [rows[k].info] else []) &&
      (HasS3Disk(rows[..k + 1]) <==> HasS3Disk(rows[..k]) || IsS3Disk(rows[k]))
  {
    var p := rows[..k + 1];
    assert p[..k] == rows[..k] && p[k] == rows[k];
    assert forall i :: 0 <= i < k ==> p[i] == rows[..k][i];
  }

  method GetDFDiskInfos(query: Result<seq<DiskRow>>) returns (disks: seq<DiskInfo>, hasS3: bool, err: Option<string>)
    ensures DiskScan(disks, hasS3, err) == DFDiskInfos(query)
  {
    if query.Err? {
      return [], false, Some(query.error);
    }
    var rows := query.value;
    disks, hasS3 := [], false;
    var k := 0;
    while k < |rows|
      invariant 0 <= k <= |rows|
      invariant !HasScanError(rows[..k])
      invariant disks == DataDisks(rows[..k]) && hasS3 == HasS3Disk(rows[..k])
    {
      DiskScanStep(rows, k);
      if rows[k].DiskScanError? {
        return [], false, None;
      }
      if HasPrefix(rows[k].info.name, DF_DISK_PREFIX) {
        disks := disks + [rows[k].info];
      } else if HasPrefix(rows[k].info.name, DF_S3_DISK_PREFIX) {
        hasS3 := true;
      }
      k := k + 1;
    }
    assert rows[..|rows|] == rows;
    if disks == [] {
      err := Some(NO_DATA_DISK_ERROR);
    } else {
      err := None;
    }
  }

  /* ---------------- reading system.parts ---------------- */

  /** getMinPartitions: the oldest partition of every table with more than one, or the first scan error. */
  function MinPartitions(rows: seq<PartRow>): (r: Result<seq<Partition>>)
    ensures r.Ok? ==> forall p :: p in r.value <==> exists n :: PartScanned(p, n) in rows && n > 1
  {
    if rows == [] then Ok([])
    else
      var init := rows[..|rows| - 1];
      var last := rows[|rows| - 1];
      assert rows == init + [last];
      match MinPartitions(init)
      case Err(e) => Err(e)
      case Ok(ps) =>
        if last.PartScanError? then Err(last.error)
        else Ok(ps + (if last.count > 1 then [last.p] else []))
  }

  /** Once a scan error is met, the rest of the rows do not matter. */
  lemma {:induction false} MinPartitionsErrorSticks(rows: seq<PartRow>, j: nat)
    requires j <= |rows| && MinPartitions(rows[..j]).Err?
    ensures MinPartitions(rows) == MinPartitions(rows[..j])
    decreases |rows| - j
  {
    if j < |rows| {
      assert rows[..j + 1][..j] == rows[..j];
      MinPartitionsErrorSticks(rows, j + 1);
    } else {
      assert rows[..j] == rows;
    }
  }

  method GetMinPartitions(query: Result<seq<PartRow>>) returns (r: Result<seq<Partition>>)
    ensures r == (if query.Err? then Err(query.error) else MinPartitions(query.value))
  {
    if query.Err? {
      return Err(query.error);
    }
    var rows := query.value;
    var partitions: seq<Partition> := [];
    var k := 0;
    while k < |rows|
      invariant 0 <= k <= |rows|
      invariant MinPartitions(rows[..k]) == Ok(partitions)
    {
      assert rows[..k + 1][..k] == rows[..k];
      assert rows[..k + 1][k] == rows[k];
      match rows[k] {
        case PartScanError(e) =>
          MinPartitionsErrorSticks(rows, k + 1);
          return Err(e);
        case PartScanned(p, count) =>
          assert MinPartitions(rows[..k + 1]) == Ok(partitions + (if count > 1 then [p] else []));
          if count > 1 {
            partitions := partitions + [p];
          } else {
            assert partitions + [] == partitions;
          }
      }
      k := k + 1;
    }
    assert rows[..|rows|] == rows;
    return Ok(partitions);
  }

  /* ---------------- dropping and moving partitions ---------------- */

  function Statements(conn: Conn, parts: seq<Partition>, move: bool, volume: string): (r: seq<Statement>)
    ensures |r| == |parts|
  {
    seq(|parts|, i requires 0 <= i < |parts| =>
      if move then MovePartition(conn, parts[i], volume) else DropPartition(conn, parts[i]))
  }

  /** The statements executed in order up to and including the first that fails. */
  function Attempted(env: Env, stmts: seq<Statement>): seq<Statement>
  {
    if stmts == [] then []
    else if !env.execOk(stmts[0]) then [stmts[0]]
    else [stmts[0]] + Attempted(env, stmts[1..])
  }

  /**
   * The executed statements are a prefix of the list; every one but the
   * last succeeded; the whole list runs iff all but its last succeed, and a
   * shorter run ends at a failure.
   */
  lemma {:induction false} AttemptedPrefix(env: Env, stmts: seq<Statement>)
    ensures var r := Attempted(env, stmts);
      |r| <= |stmts| && r == stmts[..|r|] &&
      (forall i :: 0 <= i < |r| - 1 ==> env.execOk(r[i])) &&
      (|r| < |stmts| ==> !env.execOk(r[|r| - 1])) &&
      (stmts != [] ==> r != [])
  {
    if stmts != [] && env.execOk(stmts[0]) {
      AttemptedPrefix(env, stmts[1..]);
      var rest := Attempted(env, stmts[1..]);
      assert stmts == [stmts[0]] + stmts[1..];
    }
  }

  predicate AllSucceed(env: Env, stmts: seq<Statement>)
  {
    forall i :: 0 <= i < |stmts| ==> env.execOk(stmts[i])
  }

  /** What dropMinPartitions / moveMinPartitions execute on a connection. */
  function Clean(env: Env, conn: Conn, move: bool, volume: string): seq<Statement>
  {
    var parts := if env.parts(conn).Err? then Err(env.parts(conn).error) else MinPartitions(env.parts(conn).value);
    if parts.Err? then [] else Attempted(env, Statements(conn, parts.value, move, volume))
  }

  /** One server's check on a checking tick. */
  function CheckServer(env: Env, usedPercent: i64, freeSpace: i64, volume: string, conn: Conn): seq<Statement>
  {
    var scan := DFDiskInfos(env.disks(conn));
    if scan.err.None? && DisksNeedClean(usedPercent, freeSpace, scan.disks) then Clean(env, conn, scan.hasS3, volume)
    else []
  }

  function CheckServers(env: Env, usedPercent: i64, freeSpace: i64, volume: string, conns: seq<Option<Conn>>): seq<Statement>
  {
    if conns == [] then []
    else
      var init := conns[..|conns| - 1];
      var last := conns[|conns| - 1];
      CheckServers(env, usedPercent, freeSpace, volume, init) +
        (if last.Some? then CheckServer(env, usedPercent, freeSpace, volume, last.value) else [])
  }
  lemma StatementsAppend(before: seq<Statement>, done: seq<Statement>, more: seq<Statement>)
    ensures before + done + more == before + (done + more)
  {
  }

  /** One more connection adds its server's statements when it is present. */
  lemma CheckServersSnoc(env: Env, usedPercent: i64, freeSpace: i64, volume: string, conns: seq<Option<Conn>>, k: nat)
    requires k < |conns|
    ensures CheckServers(env, usedPercent, freeSpace, volume, conns[..k + 1]) ==
      CheckServers(env, usedPercent, freeSpace, volume, conns[..k]) +
      (if conns[k].Some? then CheckServer(env, usedPercent, freeSpace, volume, conns[k].value) else [])
  {
    assert conns[..k + 1][..k] == conns[..k];
  }


  /**
   * A server's partitions are touched only when every data disk needs
   * cleaning; each statement is on that server, moves to the S3 volume when
   * an S3 disk exists and drops otherwise, and touches a table's oldest
   * partition only when the table has more than one.
   */
  lemma CheckServerRule(env: Env, usedPercent: i64, freeSpace: i64, volume: string, conn: Conn)
    ensures var stmts := CheckServer(env, usedPercent, freeSpace, volume, conn);
      var scan := DFDiskInfos(env.disks(conn));
      (stmts != [] ==> (scan.err.None? && DisksNeedClean(usedPercent, freeSpace, scan.disks) &&
         env.parts(conn).Ok? && MinPartitions(env.parts(conn).value).Ok?)) &&
      forall i :: 0 <= i < |stmts| ==>
        stmts[i].conn == conn && (stmts[i].MovePartition? <==> scan.hasS3) &&
        (stmts[i].MovePartition? ==> stmts[i].volume == volume) &&
        stmts[i].p in MinPartitions(env.parts(conn).value).value
  {
    var stmts := CheckServer(env, usedPercent, freeSpace, volume, conn);
    var scan := DFDiskInfos(env.disks(conn));
    if stmts != [] {
      var parts := MinPartitions(env.parts(conn).value).value;
      var all := Statements(conn, parts, scan.hasS3, volume);
      AttemptedPrefix(env, all);
      forall i | 0 <= i < |stmts|
        ensures stmts[i].p in parts
      {
        assert stmts[i] == all[i];
      }
    }
  }

  /** Go's `%` truncates toward zero; the tick counter is never negative. */
  function GoRem(a: nat, b: int): (r: nat)
    requires b != 0
    ensures r < (if b < 0 then -b else b)
  {
    a % (if b < 0 then -b else b)
  }

  /** updateConnection: no address means no connection; a connection that answers is kept, otherwise reconnect. */
  function UpdateConnection(env: Env, conn: Option<Conn>, addr: string): Option<Conn>
  {
    if addr == "" then None
    else if conn.None? || !env.ping(conn.value) then env.connect(addr)
    else conn
  }

  class Monitor {
    const checkInterval: i64
    const usedPercentThreshold: i64
    const freeSpaceThreshold: i64
    const primaryAddr: string
    const secondaryAddr: string
    const s3Volume: string
    var primaryConn: Option<Conn>
    var secondaryConn: Option<Conn>
    var counter: nat
    var executed: seq<Statement>

    /** NewCKMonitor, given the connections it opened. */
    constructor (cfg: DiskMonitorConfig, primaryAddr: string, secondaryAddr: string, s3Volume: string,
                 primaryConn: Conn, secondaryConn: Option<Conn>)
      ensures checkInterval == cfg.checkInterval && usedPercentThreshold == cfg.usedPercent
      ensures freeSpaceThreshold == FreeSpaceThreshold(cfg.freeSpace)
      ensures this.primaryAddr == primaryAddr && this.secondaryAddr == secondaryAddr && this.s3Volume == s3Volume
      ensures this.primaryConn == Some(primaryConn)
      ensures this.secondaryConn == (if secondaryAddr == "" then None else secondaryConn)
      ensures counter == 0 && executed == []
    {
      checkInterval := cfg.checkInterval;
      usedPercentThreshold := cfg.usedPercent;
      freeSpaceThreshold := FreeSpaceThreshold(cfg.freeSpace);
      this.primaryAddr := primaryAddr;
      this.secondaryAddr := secondaryAddr;
      this.s3Volume := s3Volume;
      this.primaryConn := Some(primaryConn);
      this.secondaryConn := if secondaryAddr == "" then None else secondaryConn;
      counter := 0;
      executed := [];
    }

    /** isDisksNeedClean: stops at the first disk that does not need cleaning. */
    method IsDisksNeedClean(disks: seq<DiskInfo>) returns (r: bool)
      ensures r == DisksNeedClean(usedPercentThreshold, freeSpaceThreshold, disks)
    {
      if |disks| == 0 {
        return false;
      }
      var k := 0;
      while k < |disks|
        invariant 0 <= k <= |disks|
        invariant forall i :: 0 <= i < k ==> DiskNeedsClean(usedPercentThreshold, freeSpaceThreshold, disks[i])
      {
        var d := disks[k];
        var needs := false;
        if d.totalSpace != 0 {
          var usage := WrapU64(Used(d) * 100 + d.totalSpace - 1) / d.totalSpace;
          needs := usage > WrapU64(usedPercentThreshold) && d.freeSpace < WrapU64(freeSpaceThreshold);
        }
        if !needs {
          return false;
        }
        k := k + 1;
      }
      return true;
    }

    /** Executes the statements in order and stops at the first failure. */
    method ExecAll(env: Env, stmts: seq<Statement>) returns (err: Option<string>)
      modifies this`executed
      ensures executed == old(executed) + Attempted(env, stmts)
      ensures err.None? <==> AllSucceed(env, stmts)
      ensures primaryConn == old(primaryConn) && secondaryConn == old(secondaryConn) && counter == old(counter)
    {
      var k := 0;
      while k < |stmts|
        invariant 0 <= k <= |stmts|
        invariant executed + Attempted(env, stmts[k..]) == old(executed) + Attempted(env, stmts)
        invariant forall i :: 0 <= i < k ==> env.execOk(stmts[i])
        invariant primaryConn == old(primaryConn) && secondaryConn == old(secondaryConn) && counter == old(counter)
      {
        assert stmts[k..][1..] == stmts[k + 1..];
        executed := executed + [stmts[k]];
        if !env.execOk(stmts[k]) {
          return Some("exec failed");
        }
        k := k + 1;
      }
      return None;
    }

    /** dropMinPartitions (move false) and moveMinPartitions (move true). */
    method CleanMinPartitions(env: Env, conn: Conn, move: bool) returns (err: Option<string>)
      modifies this`executed
      ensures executed == old(executed) + Clean(env, conn, move, s3Volume)
      ensures primaryConn == old(primaryConn) && secondaryConn == old(secondaryConn) && counter == old(counter)
    {
      var parts := GetMinPartitions(env.parts(conn));
      if parts.Err? {
        return Some(parts.error);
      }
      err := ExecAll(env, Statements(conn, parts.value, move, s3Volume));
    }

    method UpdateConnections(env: Env)
      modifies this`primaryConn, this`secondaryConn
      ensures primaryConn == UpdateConnection(env, old(primaryConn), primaryAddr)
      ensures secondaryConn == UpdateConnection(env, old(secondaryConn), secondaryAddr)
      ensures counter == old(counter) && executed == old(executed)
    {
      primaryConn := UpdateConnection(env, primaryConn, primaryAddr);
      secondaryConn := UpdateConnection(env, secondaryConn, secondaryAddr);
    }

    /** The body of start's loop over the connections, for one server. */
    method CheckServerStep(env: Env, conn: Conn)
      modifies this`executed
      ensures executed == old(executed) + CheckServer(env, usedPercentThreshold, freeSpaceThreshold, s3Volume, conn)
      ensures primaryConn == old(primaryConn) && secondaryConn == old(secondaryConn) && counter == old(counter)
    {
      var disks, hasS3, err := GetDFDiskInfos(env.disks(conn));
      if err.None? {
        var needs := IsDisksNeedClean(disks);
        if needs {
          var _ := CleanMinPartitions(env, conn, hasS3);
        }
      }
    }

    /**
     * One second of start's loop: count the tick, and on every
     * checkInterval-th tick refresh the connections and check each server.
     * A zero interval is a division by zero in the source.
     */
    method Tick(env: Env)
      requires checkInterval != 0
      modifies this
      ensures counter == old(counter) + 1
      ensures GoRem(counter, checkInterval) != 0 ==>
        primaryConn == old(primaryConn) && secondaryConn == old(secondaryConn) && executed == old(executed)
      ensures GoRem(counter, checkInterval) == 0 ==>
        primaryConn == UpdateConnection(env, old(primaryConn), primaryAddr) &&
        secondaryConn == UpdateConnection(env, old(secondaryConn), secondaryAddr) &&
        executed == old(executed) +
          CheckServers(env, usedPercentThreshold, freeSpaceThreshold, s3Volume, [primaryConn, secondaryConn])
    {
      counter := counter + 1;
      if GoRem(counter, checkInterval) != 0 {
        return;
      }
      UpdateConnections(env);
      CheckAll(env, [primaryConn, secondaryConn]);
    }

    /** The loop over the primary and secondary connection: absent ones are skipped. */
    method CheckAll(env: Env, conns: seq<Option<Conn>>)
      modifies this`executed
      ensures executed == old(executed) + CheckServers(env, usedPercentThreshold, freeSpaceThreshold, s3Volume, conns)
      ensures primaryConn == old(primaryConn) && secondaryConn == old(secondaryConn) && counter == old(counter)
    {
      var k := 0;
      while k < |conns|
        invariant 0 <= k <= |conns|
        invariant primaryConn == old(primaryConn) && secondaryConn == old(secondaryConn) && counter == old(counter)
        invariant executed == old(executed) + CheckServers(env, usedPercentThreshold, freeSpaceThreshold, s3Volume, conns[..k])
      {
        CheckServersSnoc(env, usedPercentThreshold, freeSpaceThreshold, s3Volume, conns, k);
        if conns[k].Some? {
          CheckServerStep(env, conns[k].value);
          StatementsAppend(old(executed), CheckServers(env, usedPercentThreshold, freeSpaceThreshold, s3Volume, conns[..k]),
                           CheckServer(env, usedPercentThreshold, freeSpaceThreshold, s3Volume, conns[k].value));
        }
        k := k + 1;
      }
      assert conns[..|conns|] == conns;
    }
  }
}
