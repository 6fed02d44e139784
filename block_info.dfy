/** The blockinfo table: a rolling window of (height, timestamp) records for
    recent blocks. Every `onblock` appends a record for the new block and erases
    at most two of the oldest records that lie more than the window's height
    difference below it. */
module BlockInfo {
  import opened Ledger

  /** The height difference the table tries to keep. */
  const RollingWindowSize: uint32 := 10
  /** How many outdated records one `onblock` erases at most. */
  const MaxErasedPerBlock: nat := 2

  datatype BlockInfoRecord = BlockInfoRecord(version: uint8, blockHeight: uint32, blockTimestamp: TimePoint)

  /** `r` lies more than the window's height difference below block `newest`. */
  predicate Outdated(r: BlockInfoRecord, newest: int)
  {
    r.blockHeight as int + RollingWindowSize as int < newest
  }

  /** No record lies outside the window ending at block `newest`. */
  predicate Windowed(rows: seq<BlockInfoRecord>, newest: int)
  {
    forall i :: 0 <= i < |rows| ==> !Outdated(rows[i], newest)
  }

  /** Rows in primary-key (height) order, heights distinct. */
  predicate Ascending(rows: seq<BlockInfoRecord>)
  {
    forall i, j :: 0 <= i < j < |rows| ==> rows[i].blockHeight < rows[j].blockHeight
  }

  /** Dropping the oldest records keeps the order. */
  lemma AscendingSuffix(rows: seq<BlockInfoRecord>, k: nat)
    requires Ascending(rows) && k <= |rows|
    ensures Ascending(rows[k..])
  {
  }

  /** Appending a record above every height keeps the order. */
  lemma AscendingAppend(rows: seq<BlockInfoRecord>, r: BlockInfoRecord)
    requires Ascending(rows)
    requires forall i :: 0 <= i < |rows| ==> rows[i].blockHeight < r.blockHeight
    ensures Ascending(rows + [r])
  {
  }

  /** Erases outdated records from the oldest end, at most `budget` of them,
      stopping at the first record that is still inside the window. */
  function EraseOutdated(rows: seq<BlockInfoRecord>, newest: int, budget: nat): (r: seq<BlockInfoRecord>)
    ensures |r| <= |rows| && r == rows[|rows| - |r|..]
    ensures |rows| - |r| <= budget
    ensures forall i :: 0 <= i < |rows| - |r| ==> Outdated(rows[i], newest)
    ensures |rows| - |r| < budget ==> r == [] || !Outdated(r[0], newest)
    decreases budget
  {
    if budget == 0 || rows == [] || !Outdated(rows[0], newest) then rows
    else EraseOutdated(rows[1..], newest, budget - 1)
  }

  /** Erasing with a budget left and an outdated oldest record erases that record
      and continues with one less. */
  lemma EraseStep(rows: seq<BlockInfoRecord>, newest: int, budget: nat)
    requires budget > 0 && rows != [] && Outdated(rows[0], newest)
    ensures EraseOutdated(rows, newest, budget) == EraseOutdated(rows[1..], newest, budget - 1)
  {
  }

  /** The table after `onblock` for block `height` produced at `timestamp`. */
  function OnBlockRows(rows: seq<BlockInfoRecord>, height: uint32, timestamp: TimePoint): seq<BlockInfoRecord>
  {
    EraseOutdated(rows, height as int, MaxErasedPerBlock) + [BlockInfoRecord(0, height, timestamp)]
  }

  /** The table stays in height order when the new block is above every stored height. */
  lemma OnBlockKeepsOrder(rows: seq<BlockInfoRecord>, height: uint32, timestamp: TimePoint)
    requires Ascending(rows)
    requires forall i :: 0 <= i < |rows| ==> rows[i].blockHeight < height
    ensures Ascending(OnBlockRows(rows, height, timestamp))
  {
    var kept := EraseOutdated(rows, height as int, MaxErasedPerBlock);
    AscendingSuffix(rows, |rows| - |kept|);
    AscendingAppend(kept, BlockInfoRecord(0, height, timestamp));
  }

  class BlockInfoTable {
    var rows: seq<BlockInfoRecord>

    ghost predicate Valid()
      reads this
    {
      Ascending(rows)
    }

    constructor ()
      ensures Valid() && rows == []
    {
      rows := [];
    }

    /** Records block `height`, which the host delivers above every stored height. */
    method OnBlock(height: uint32, timestamp: TimePoint)
      requires Valid()
      requires forall i :: 0 <= i < |rows| ==> rows[i].blockHeight < height
      modifies this
      ensures Valid()
      ensures rows == OnBlockRows(old(rows), height, timestamp)
    {
      EraseOutdatedRows(height as int);
      OnBlockKeepsOrder(old(rows), height, timestamp);
      rows := rows + [BlockInfoRecord(0, height, timestamp)];
    }

    /** Erases, oldest first, at most two records outdated for block `newest`. */
    method EraseOutdatedRows(newest: int)
      modifies this
      ensures rows == EraseOutdated(old(rows), newest, MaxErasedPerBlock)
    {
      var budget := MaxErasedPerBlock;
      while budget > 0 && rows != [] && Outdated(rows[0], newest)
        invariant EraseOutdated(rows, newest, budget) == EraseOutdated(old(rows), newest, MaxErasedPerBlock)
      {
        EraseStep(rows, newest, budget);
        rows := rows[1..];
        budget := budget - 1;
      }
    }
  }

  /** One `onblock` appends exactly the new record, with version 0, and otherwise
      only erases: what remains of the old table is a suffix of it, shorter by at
      most two records, all of them outdated. */
  lemma OnBlockShape(rows: seq<BlockInfoRecord>, height: uint32, timestamp: TimePoint)
    ensures var after := OnBlockRows(rows, height, timestamp);
      |rows| - MaxErasedPerBlock + 1 <= |after| <= |rows| + 1 &&
      after[|after| - 1] == BlockInfoRecord(0, height, timestamp) &&
      after[..|after| - 1] == rows[|rows| + 1 - |after|..] &&
      forall i :: 0 <= i < |rows| + 1 - |after| ==> Outdated(rows[i], height as int)
  {
  }

  /** With three outdated records, one `onblock` erases two and the third survives. */
  lemma OutdatedRecordCanSurvive()
    ensures var rows := [BlockInfoRecord(0, 1, 0), BlockInfoRecord(0, 2, 0), BlockInfoRecord(0, 3, 0)];
      OnBlockRows(rows, 20, 0) == [BlockInfoRecord(0, 3, 0), BlockInfoRecord(0, 20, 0)] &&
      Outdated(BlockInfoRecord(0, 3, 0), 20)
  {
  }

  /** Strictly ascending heights within [lo, hi] number at most hi - lo + 1. */
  lemma {:induction false} AscendingBound(rows: seq<BlockInfoRecord>, lo: int, hi: int)
    requires Ascending(rows)
    requires forall i :: 0 <= i < |rows| ==> lo <= rows[i].blockHeight as int <= hi
    ensures |rows| <= if hi < lo then 0 else hi - lo + 1
  {
    if rows != [] {
      AscendingBound(rows[1..], rows[0].blockHeight as int + 1, hi);
    }
  }

  /** If nothing was outside the window of the previous block, only the oldest
      record can be outside the window of the next one. */
  lemma OnlyOldestDropsOut(rows: seq<BlockInfoRecord>, newest: int)
    requires Ascending(rows)
    requires Windowed(rows, newest - 1)
    ensures forall i :: 0 < i < |rows| ==> !Outdated(rows[i], newest)
  {
    forall i | 0 < i < |rows| ensures !Outdated(rows[i], newest) {
      assert rows[0].blockHeight < rows[i].blockHeight;
      assert !Outdated(rows[0], newest - 1);
    }
  }

  /** When the table held only records of the previous block's window and every
      height is below the new block's, the table after `onblock` holds only
      records of the new window, none above the new block. */
  lemma OnBlockLeavesWindow(rows: seq<BlockInfoRecord>, height: uint32, timestamp: TimePoint)
    requires Ascending(rows) && Windowed(rows, height as int - 1)
    requires forall i :: 0 <= i < |rows| ==> rows[i].blockHeight < height
    ensures var after := OnBlockRows(rows, height, timestamp);
      Windowed(after, height as int)
      && forall i :: 0 <= i < |after| ==>
           height as int - RollingWindowSize as int <= after[i].blockHeight as int <= height as int
  {
    var kept := EraseOutdated(rows, height as int, MaxErasedPerBlock);
    var after := OnBlockRows(rows, height, timestamp);
    var dropped := |rows| - |kept|;
    OnlyOldestDropsOut(rows, height as int);
    forall i | 0 <= i < |after| ensures !Outdated(after[i], height as int) && after[i].blockHeight <= height {
      if i < |kept| {
        assert after[i] == kept[i] == rows[dropped + i];
      }
    }
  }

  /** When the newest record is the previous block, every record is below the new one. */
  lemma BelowNextBlock(rows: seq<BlockInfoRecord>, height: uint32)
    requires Ascending(rows) && rows != []
    requires rows[|rows| - 1].blockHeight as int + 1 == height as int
    ensures forall i :: 0 <= i < |rows| ==> rows[i].blockHeight < height
  {
  }

  /** An ascending table whose heights lie within the window ending at `height`
      has at most one record per height of the window. */
  lemma WindowSize(rows: seq<BlockInfoRecord>, height: uint32)
    requires Ascending(rows)
    requires forall i :: 0 <= i < |rows| ==>
      height as int - RollingWindowSize as int <= rows[i].blockHeight as int <= height as int
    ensures |rows| <= RollingWindowSize as int + 1
  {
    AscendingBound(rows, height as int - RollingWindowSize as int, height as int);
  }

  /** A block above every stored height, arriving when the table held only
      records of the previous block's window, leaves the table ordered, inside
      the new window and no longer than the window size plus the new block. */
  lemma OnBlockKeepsWindow(rows: seq<BlockInfoRecord>, height: uint32, timestamp: TimePoint)
    requires Ascending(rows)
    requires forall i :: 0 <= i < |rows| ==> rows[i].blockHeight < height
    requires Windowed(rows, height as int - 1)
    ensures var after := OnBlockRows(rows, height, timestamp);
      Ascending(after) && Windowed(after, height as int) && |after| <= RollingWindowSize as int + 1
  {
    OnBlockKeepsOrder(rows, height, timestamp);
    OnBlockLeavesWindow(rows, height, timestamp);
    WindowSize(OnBlockRows(rows, height, timestamp), height);
  }

  /** When blocks arrive one height at a time, a table that held only records of
      the window keeps holding only such records, and so never exceeds the window
      size plus the newest block. */
  lemma ConsecutiveBlocksKeepWindow(rows: seq<BlockInfoRecord>, height: uint32, timestamp: TimePoint)
    requires Ascending(rows)
    requires rows != [] ==> rows[|rows| - 1].blockHeight as int + 1 == height as int
    requires Windowed(rows, height as int - 1)
    ensures var after := OnBlockRows(rows, height, timestamp);
      Ascending(after) && Windowed(after, height as int) && |after| <= RollingWindowSize as int + 1
  {
    if rows != [] { BelowNextBlock(rows, height); }
    OnBlockKeepsWindow(rows, height, timestamp);
  }
}
