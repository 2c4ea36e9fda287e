/**
 "Queue drain": folding a backlog of heads into its newest one and planning once, against
 planning for every head in turn.
 */
module DrainRefinement {
  import opened Domain
  import opened FetchPlanner

  function MaxOf(heads: seq<BlockNumber>): BlockNumber {
    if heads == [] then 0 else Max(MaxOf(heads[..|heads| - 1]), heads[|heads| - 1])
  }

  /** Where the cursor ends up and which ranges were requested. */
  datatype Progress = Progress(cursor: BlockNumber, ranges: seq<Range>)

  /** Plan for one head and fetch every range; the cursor follows the end of each range. */
  function Process(cursor: BlockNumber, head: BlockNumber, maxBackfill: nat, chunkBlocks: nat): Progress
    requires chunkBlocks >= 1
  {
    var ranges := Plan(cursor, head, maxBackfill, chunkBlocks).ranges;
    Progress(if ranges == [] then cursor else ranges[|ranges| - 1].to, ranges)
  }

  /** The same for each head in turn. */
  function OneByOne(cursor: BlockNumber, heads: seq<BlockNumber>, maxBackfill: nat, chunkBlocks: nat): Progress
    requires chunkBlocks >= 1
  {
    if heads == [] then Progress(cursor, [])
    else
      var before := OneByOne(cursor, heads[..|heads| - 1], maxBackfill, chunkBlocks);
      var next := Process(before.cursor, heads[|heads| - 1], maxBackfill, chunkBlocks);
      Progress(next.cursor, before.ranges + next.ranges)
  }

  lemma {:induction false} TilesEnd(ranges: seq<Range>, lo: nat, hi: nat)
    requires Tiles(ranges, lo, hi) && ranges != []
    ensures ranges[|ranges| - 1].to + 1 == hi
  {
    if |ranges| > 1 {
      TilesEnd(ranges[1..], ranges[0].to + 1, hi);
    } else {
      assert ranges[1..] == [];
    }
  }

  /** One head moves the cursor to the head, unless the head is stale. */
  lemma ProcessCursor(cursor: BlockNumber, head: BlockNumber, maxBackfill: nat, chunkBlocks: nat)
    requires maxBackfill >= 1 && chunkBlocks >= 1
    ensures Process(cursor, head, maxBackfill, chunkBlocks).cursor == Max(cursor, head)
  {
    if cursor == 0 {
      FirstHeadPlan(head, maxBackfill, chunkBlocks);
    } else if head > cursor {
      var plan := Plan(cursor, head, maxBackfill, chunkBlocks);
      PlanArithmetic(cursor, head, maxBackfill, chunkBlocks);
      TilesEnd(plan.ranges, cursor + 1 + plan.skippedBlocks, head + 1);
    }
  }

  lemma {:induction false} OneByOneCursor(cursor: BlockNumber, heads: seq<BlockNumber>, maxBackfill: nat,
                                          chunkBlocks: nat)
    requires maxBackfill >= 1 && chunkBlocks >= 1
    ensures OneByOne(cursor, heads, maxBackfill, chunkBlocks).cursor == Max(cursor, MaxOf(heads))
  {
    if heads != [] {
      var earlier, last := heads[..|heads| - 1], heads[|heads| - 1];
      OneByOneCursor(cursor, earlier, maxBackfill, chunkBlocks);
      ProcessCursor(Max(cursor, MaxOf(earlier)), last, maxBackfill, chunkBlocks);
    }
  }

  /** From a running cursor, every block above it that the newest head's cap still reaches was fetched. */
  lemma {:induction false} OneByOneReaches(cursor: BlockNumber, heads: seq<BlockNumber>, maxBackfill: nat,
                                           chunkBlocks: nat, newest: BlockNumber, block: BlockNumber)
    requires maxBackfill >= 1 && chunkBlocks >= 1 && cursor > 0
    requires MaxOf(heads) <= newest < block + maxBackfill
    ensures var solo := OneByOne(cursor, heads, maxBackfill, chunkBlocks);
            Cover(solo.ranges, block) == if cursor < block <= solo.cursor then 1 else 0
  {
    if heads != [] {
      var earlier, last := heads[..|heads| - 1], heads[|heads| - 1];
      var before := OneByOne(cursor, earlier, maxBackfill, chunkBlocks);
      OneByOneReaches(cursor, earlier, maxBackfill, chunkBlocks, newest, block);
      OneByOneCursor(cursor, earlier, maxBackfill, chunkBlocks);
      ProcessCursor(before.cursor, last, maxBackfill, chunkBlocks);
      PlanCover(before.cursor, last, maxBackfill, chunkBlocks, block);
      CoverConcat(before.ranges, Process(before.cursor, last, maxBackfill, chunkBlocks).ranges, block);
    }
  }

  /** From a fresh cursor, the newest head itself was fetched. */
  lemma {:induction false} OneByOneFetchesNewest(heads: seq<BlockNumber>, maxBackfill: nat, chunkBlocks: nat)
    requires maxBackfill >= 1 && chunkBlocks >= 1 && heads != []
    ensures Cover(OneByOne(0, heads, maxBackfill, chunkBlocks).ranges, MaxOf(heads)) >= 1
  {
    var earlier, last := heads[..|heads| - 1], heads[|heads| - 1];
    var before := OneByOne(0, earlier, maxBackfill, chunkBlocks);
    OneByOneCursor(0, earlier, maxBackfill, chunkBlocks);
    PlanCover(before.cursor, last, maxBackfill, chunkBlocks, MaxOf(heads));
    CoverConcat(before.ranges, Process(before.cursor, last, maxBackfill, chunkBlocks).ranges, MaxOf(heads));
    if earlier != [] {
      OneByOneFetchesNewest(earlier, maxBackfill, chunkBlocks);
    }
  }

  lemma Distribute(a: nat, b: nat, factor: nat)
    ensures (a + b) * factor == a * factor + b * factor
    ensures a * factor >= 0 && b * factor >= 0
  {
  }

  /** The requests made one by one have room for the newest `min(gap, cap)` blocks. */
  lemma {:induction false} OneByOneRequests(cursor: BlockNumber, heads: seq<BlockNumber>, maxBackfill: nat,
                                            chunkBlocks: nat)
    requires maxBackfill >= 1 && chunkBlocks >= 1 && cursor > 0
    ensures var solo := OneByOne(cursor, heads, maxBackfill, chunkBlocks);
            solo.cursor - cursor <= |solo.ranges| * chunkBlocks || maxBackfill <= |solo.ranges| * chunkBlocks
  {
    OneByOneCursor(cursor, heads, maxBackfill, chunkBlocks);
    if heads != [] {
      var earlier, last := heads[..|heads| - 1], heads[|heads| - 1];
      var before := OneByOne(cursor, earlier, maxBackfill, chunkBlocks);
      var next := Process(before.cursor, last, maxBackfill, chunkBlocks);
      OneByOneRequests(cursor, earlier, maxBackfill, chunkBlocks);
      OneByOneCursor(cursor, earlier, maxBackfill, chunkBlocks);
      if last > before.cursor {
        PlanArithmetic(before.cursor, last, maxBackfill, chunkBlocks);
      }
      Distribute(|before.ranges|, |next.ranges|, chunkBlocks);
    }
  }

  lemma Monotone(a: nat, b: nat, factor: nat)
    requires a <= b
    ensures a * factor <= b * factor
  {
  }

  lemma FewerChunks(a: nat, b: nat, chunkBlocks: nat)
    requires chunkBlocks >= 1 && (a - 1) * chunkBlocks < b * chunkBlocks
    ensures a <= b
  {
    if b <= a - 1 {
      Monotone(b, a - 1, chunkBlocks);
    }
  }

  /** Nothing at or below a running cursor is fetched again. */
  lemma {:induction false} OneByOneAbove(cursor: BlockNumber, heads: seq<BlockNumber>, maxBackfill: nat,
                                         chunkBlocks: nat, block: BlockNumber)
    requires maxBackfill >= 1 && chunkBlocks >= 1 && 0 < cursor && block <= cursor
    ensures Cover(OneByOne(cursor, heads, maxBackfill, chunkBlocks).ranges, block) == 0
  {
    if heads != [] {
      var earlier, last := heads[..|heads| - 1], heads[|heads| - 1];
      var before := OneByOne(cursor, earlier, maxBackfill, chunkBlocks);
      OneByOneAbove(cursor, earlier, maxBackfill, chunkBlocks, block);
      OneByOneCursor(cursor, earlier, maxBackfill, chunkBlocks);
      PlanCover(before.cursor, last, maxBackfill, chunkBlocks, block);
      CoverConcat(before.ranges, Process(before.cursor, last, maxBackfill, chunkBlocks).ranges, block);
    }
  }

  /** One plan for the newest head takes no more requests than a plan for each head. */
  lemma DrainRequests(cursor: BlockNumber, heads: seq<BlockNumber>, maxBackfill: nat, chunkBlocks: nat)
    requires maxBackfill >= 1 && chunkBlocks >= 1 && heads != []
    ensures |Process(cursor, MaxOf(heads), maxBackfill, chunkBlocks).ranges|
         <= |OneByOne(cursor, heads, maxBackfill, chunkBlocks).ranges|
  {
    var newest := MaxOf(heads);
    OneByOneCursor(cursor, heads, maxBackfill, chunkBlocks);
    if cursor == 0 {
      FirstHeadPlan(newest, maxBackfill, chunkBlocks);
      OneByOneFetchesNewest(heads, maxBackfill, chunkBlocks);
    } else if newest > cursor {
      PlanArithmetic(cursor, newest, maxBackfill, chunkBlocks);
      OneByOneRequests(cursor, heads, maxBackfill, chunkBlocks);
      FewerChunks(|Process(cursor, newest, maxBackfill, chunkBlocks).ranges|,
                  |OneByOne(cursor, heads, maxBackfill, chunkBlocks).ranges|, chunkBlocks);
    }
  }

  /** No block is fetched more often, and within the cap of a running cursor none less often. */
  lemma DrainBlock(cursor: BlockNumber, heads: seq<BlockNumber>, maxBackfill: nat, chunkBlocks: nat, block: BlockNumber)
    requires maxBackfill >= 1 && chunkBlocks >= 1 && heads != []
    ensures var solo := Cover(OneByOne(cursor, heads, maxBackfill, chunkBlocks).ranges, block);
            var drained := Cover(Process(cursor, MaxOf(heads), maxBackfill, chunkBlocks).ranges, block);
            && drained <= solo
            && (cursor > 0 && MaxOf(heads) <= cursor + maxBackfill ==> drained == solo)
  {
    var newest := MaxOf(heads);
    OneByOneCursor(cursor, heads, maxBackfill, chunkBlocks);
    PlanCover(cursor, newest, maxBackfill, chunkBlocks, block);
    if cursor == 0 {
      OneByOneFetchesNewest(heads, maxBackfill, chunkBlocks);
    } else if newest < block + maxBackfill {
      OneByOneReaches(cursor, heads, maxBackfill, chunkBlocks, newest, block);
    } else if newest <= cursor + maxBackfill {
      OneByOneAbove(cursor, heads, maxBackfill, chunkBlocks, block);
    }
  }

  /**
   The drain refines one-by-one processing: same final cursor, no block fetched that would
   not have been, no more requests; and from a running cursor with the whole backlog inside
   the backfill cap, exactly the same blocks.
   */
  lemma DrainRefines(cursor: BlockNumber, heads: seq<BlockNumber>, maxBackfill: nat, chunkBlocks: nat)
    requires maxBackfill >= 1 && chunkBlocks >= 1 && heads != []
    ensures var solo := OneByOne(cursor, heads, maxBackfill, chunkBlocks);
            var drained := Process(cursor, MaxOf(heads), maxBackfill, chunkBlocks);
            && drained.cursor == solo.cursor
            && |drained.ranges| <= |solo.ranges|
            && (forall block: nat :: Cover(drained.ranges, block) <= Cover(solo.ranges, block))
            && (cursor > 0 && MaxOf(heads) <= cursor + maxBackfill ==>
                  forall block: nat :: Cover(drained.ranges, block) == Cover(solo.ranges, block))
  {
    OneByOneCursor(cursor, heads, maxBackfill, chunkBlocks);
    ProcessCursor(cursor, MaxOf(heads), maxBackfill, chunkBlocks);
    DrainRequests(cursor, heads, maxBackfill, chunkBlocks);
    forall block: nat {
      DrainBlock(cursor, heads, maxBackfill, chunkBlocks, block);
    }
  }
}
