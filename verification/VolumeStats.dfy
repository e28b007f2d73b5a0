/** The overflow-checked arithmetic of the node's volume statistics. */
module VolumeStats {

  const MAX_INT64: int := 0x7FFF_FFFF_FFFF_FFFF
  const MAX_UINT64: int := 0xFFFF_FFFF_FFFF_FFFF

  newtype uint64 = x: int | 0 <= x <= 0xFFFF_FFFF_FFFF_FFFF
  newtype int64 = x: int | -0x8000_0000_0000_0000 <= x <= 0x7FFF_FFFF_FFFF_FFFF

  /** The fields of statfs that the driver reads. */
  datatype Statfs = Statfs(bsize: int64, bavail: uint64, blocks: uint64, bfree: uint64, ffree: uint64, files: uint64)

  datatype Stats = Stats(availableBytes: int64, totalBytes: int64, usedBytes: int64,
                         availableInodes: int64, totalInodes: int64, usedInodes: int64)

  datatype Outcome =
    | Fine(stats: Stats)
    | NegativeBlockSize
    | AvailableOverflows | AvailableTooLarge
    | TotalOverflows | TotalTooLarge
    | UsedOverflows | UsedTooLarge
    | FreeInodesTooLarge | InodesTooLarge | InodesInconsistent

  /** Go's unsigned product, modulo 2^64. */
  function WrappingMul(a: uint64, b: uint64): uint64 {
    ((a as int * b as int) % (MAX_UINT64 + 1)) as uint64
  }

  /** What is in use, in unbounded integers. */
  function UsedBlocks(fs: Statfs): int {
    if fs.blocks > fs.bfree then fs.blocks as int - fs.bfree as int else 0
  }

  /** Everything reported fits an int64, and the inode counts are consistent. */
  predicate Representable(fs: Statfs) {
    && fs.bavail as int * fs.bsize as int <= MAX_INT64 && fs.blocks as int * fs.bsize as int <= MAX_INT64
    && fs.ffree as int <= fs.files as int <= MAX_INT64
  }

  /** The guard of each product decides overflow exactly. */
  lemma GuardIsExact(n: uint64, size: uint64)
    requires size >= 1
    ensures n as int > MAX_UINT64 / size as int <==> n as int * size as int > MAX_UINT64
    ensures n as int * size as int <= MAX_UINT64 ==> WrappingMul(n, size) as int == n as int * size as int
  {
    var a, b, q := n as int, size as int, MAX_UINT64 / size as int;
    assert MAX_UINT64 == b * q + MAX_UINT64 % b;
    if a > q {
      assert a * b >= (q + 1) * b == b * q + b;
    } else {
      assert a * b <= q * b;
      assert 0 <= a * b;
    }
  }

  lemma UsedWithinTotal(fs: Statfs)
    requires fs.bsize >= 1
    ensures 0 <= UsedBlocks(fs) <= fs.blocks as int
    ensures UsedBlocks(fs) * fs.bsize as int <= fs.blocks as int * fs.bsize as int
  {
  }

  /** GetVolumeStats after a successful statfs, for a block size other than zero (which
      would divide by zero). It succeeds exactly when everything is representable, the
      results are then the unbounded ones, and the two used-bytes errors never occur. */
  method GetVolumeStats(fs: Statfs) returns (r: Outcome)
    requires fs.bsize != 0
    ensures r.Fine? <==> fs.bsize >= 1 && Representable(fs)
    ensures r.NegativeBlockSize? <==> fs.bsize < 0
    ensures !r.UsedOverflows? && !r.UsedTooLarge?
    ensures r.Fine? ==>
            && r.stats.availableBytes as int == fs.bavail as int * fs.bsize as int
            && r.stats.totalBytes as int == fs.blocks as int * fs.bsize as int
            && (fs.blocks > fs.bfree ==>
                  r.stats.usedBytes as int == (fs.blocks as int - fs.bfree as int) * fs.bsize as int)
            && (fs.blocks <= fs.bfree ==> r.stats.usedBytes == 0)
            && 0 <= r.stats.usedBytes <= r.stats.totalBytes
            && r.stats.availableInodes as int == fs.ffree as int && r.stats.totalInodes as int == fs.files as int
            && r.stats.usedInodes as int + r.stats.availableInodes as int == r.stats.totalInodes as int
            && 0 <= r.stats.usedInodes
  {
    var stats := Stats(0, 0, 0, 0, 0, 0);
    if fs.bsize < 0 {
      return NegativeBlockSize;
    }
    var ubsize := fs.bsize as uint64;
    GuardIsExact(fs.bavail, ubsize);
    GuardIsExact(fs.blocks, ubsize);
    UsedWithinTotal(fs);

    if fs.bavail > 0xFFFF_FFFF_FFFF_FFFF / ubsize {
      return AvailableOverflows;
    }
    var availBytes := WrappingMul(fs.bavail, ubsize);
    if availBytes > 0x7FFF_FFFF_FFFF_FFFF {
      return AvailableTooLarge;
    }
    stats := stats.(availableBytes := availBytes as int64);

    if fs.blocks > 0xFFFF_FFFF_FFFF_FFFF / ubsize {
      return TotalOverflows;
    }
    var totBytes := WrappingMul(fs.blocks, ubsize);
    if totBytes > 0x7FFF_FFFF_FFFF_FFFF {
      return TotalTooLarge;
    }
    stats := stats.(totalBytes := totBytes as int64);

    var usedBlocks: uint64;
    if fs.blocks > fs.bfree {
      usedBlocks := fs.blocks - fs.bfree;
    } else {
      usedBlocks := 0;
    }
    GuardIsExact(usedBlocks, ubsize);
    if usedBlocks > 0xFFFF_FFFF_FFFF_FFFF / ubsize {
      return UsedOverflows;
    }
    var usedBytes := WrappingMul(usedBlocks, ubsize);
    if usedBytes > 0x7FFF_FFFF_FFFF_FFFF {
      return UsedTooLarge;
    }
    stats := stats.(usedBytes := usedBytes as int64);

    if fs.ffree > 0x7FFF_FFFF_FFFF_FFFF {
      return FreeInodesTooLarge;
    }
    stats := stats.(availableInodes := fs.ffree as int64);
    if fs.files > 0x7FFF_FFFF_FFFF_FFFF {
      return InodesTooLarge;
    }
    stats := stats.(totalInodes := fs.files as int64);
    if stats.totalInodes < stats.availableInodes {
      return InodesInconsistent;
    }
    stats := stats.(usedInodes := stats.totalInodes - stats.availableInodes);
    r := Fine(stats);
  }
}
