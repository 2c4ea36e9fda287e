/**
 The gap planner: one incoming head and the dispatcher's cursor become a list of
 inclusive block ranges, at most one chunk wide each, with the oldest part of an
 over-long gap skipped.
 */
module FetchPlanner {
  import opened Domain

  /** An inclusive block range, `(from, to)` in the code. */
  datatype Range = Range(from: BlockNumber, to: BlockNumber) {
    predicate Has(block: BlockNumber) {
      from <= block <= to
    }
  }

  datatype FetchPlan = FetchPlan(skippedBlocks: nat, ranges: seq<Range>)

  /** `ranges` cover `[lo, hi)` from left to right, without gap or overlap, and none is empty. */
  ghost predicate Tiles(ranges: seq<Range>, lo: nat, hi: nat) {
    if ranges == [] then lo == hi
    else ranges[0].from == lo && lo <= ranges[0].to < hi && Tiles(ranges[1..], ranges[0].to + 1, hi)
  }

  /** How many of the ranges contain `block`. */
  ghost function Cover(ranges: seq<Range>, block: BlockNumber): nat {
    if ranges == [] then 0
    else Cover(ranges[..|ranges| - 1], block) + if ranges[|ranges| - 1].Has(block) then 1 else 0
  }

  lemma {:induction false} CoverConcat(a: seq<Range>, b: seq<Range>, block: BlockNumber)
    ensures Cover(a + b, block) == Cover(a, block) + Cover(b, block)
  {
    if b == [] {
      assert a + b == a;
    } else {
      assert (a + b)[..|a + b| - 1] == a + b[..|b| - 1];
      CoverConcat(a, b[..|b| - 1], block);
    }
  }

  lemma {:induction false} TilesConcat(a: seq<Range>, b: seq<Range>, lo: nat, mid: nat, hi: nat)
    requires Tiles(a, lo, mid) && Tiles(b, mid, hi)
    ensures lo <= mid <= hi && Tiles(a + b, lo, hi)
  {
    if a == [] {
      assert a + b == b;
      TilesCover(b, lo, hi, 0);
    } else {
      assert (a + b)[1..] == a[1..] + b;
      TilesConcat(a[1..], b, a[0].to + 1, mid, hi);
    }
  }

  /** A tiling contains every block of its interval exactly once and no other block. */
  lemma {:induction false} TilesCover(ranges: seq<Range>, lo: nat, hi: nat, block: BlockNumber)
    requires Tiles(ranges, lo, hi)
    ensures lo <= hi
    ensures Cover(ranges, block) == if lo <= block < hi then 1 else 0
  {
    if ranges != [] {
      TilesCover(ranges[1..], ranges[0].to + 1, hi, block);
      assert ranges == [ranges[0]] + ranges[1..];
      CoverConcat([ranges[0]], ranges[1..], block);
      assert Cover([ranges[0]], block) == if ranges[0].Has(block) then 1 else 0;
    }
  }

  /** Counting once means: in one range, and in no second one. */
  lemma {:induction false} CoverOnce(ranges: seq<Range>, block: BlockNumber) returns (i: nat)
    requires Cover(ranges, block) == 1
    ensures i < |ranges| && ranges[i].Has(block)
    ensures forall j :: 0 <= j < |ranges| && ranges[j].Has(block) ==> j == i
  {
    var last := |ranges| - 1;
    if ranges[last].Has(block) {
      i := last;
      forall j | 0 <= j < last && ranges[j].Has(block) ensures false {
        CoverAtLeast(ranges[..last], j, block);
      }
    } else {
      i := CoverOnce(ranges[..last], block);
      forall j | 0 <= j < |ranges| && ranges[j].Has(block) ensures j == i {
        assert j < last && ranges[..last][j].Has(block);
      }
    }
  }

  lemma {:induction false} CoverAtLeast(ranges: seq<Range>, i: nat, block: BlockNumber)
    requires i < |ranges| && ranges[i].Has(block)
    ensures Cover(ranges, block) >= 1
  {
    if i < |ranges| - 1 {
      CoverAtLeast(ranges[..|ranges| - 1], i, block);
    }
  }

  /** `[from, to]` cut into chunks from the left; empty when `from > to`. */
  function Chunks(from: BlockNumber, to: BlockNumber, chunkBlocks: nat): seq<Range>
    requires chunkBlocks >= 1
    decreases (to + 1 - from)
  {
    if from > to then []
    else
      var end := Min(to, from + chunkBlocks - 1);
      [Range(from, end)] + Chunks(end + 1, to, chunkBlocks)
  }

  /** The first block the plan fetches. */
  function FetchFrom(latestProcessed: BlockNumber, incoming: BlockNumber, maxBackfill: nat): BlockNumber {
    if latestProcessed == 0 then incoming
    else Max(latestProcessed + 1, (if incoming < maxBackfill then 0 else incoming - maxBackfill) + 1)
  }

  /** The plan for one head, as a value. */
  function Plan(latestProcessed: BlockNumber, incoming: BlockNumber, maxBackfill: nat, chunkBlocks: nat): FetchPlan
    requires chunkBlocks >= 1
  {
    if latestProcessed != 0 && incoming <= latestProcessed then FetchPlan(0, [])
    else
      var from := FetchFrom(latestProcessed, incoming, maxBackfill);
      FetchPlan(if latestProcessed == 0 then 0 else from - (latestProcessed + 1), Chunks(from, incoming, chunkBlocks))
  }

  const U64_MAX: int := 0xFFFF_FFFF_FFFF_FFFF

  newtype uint64 = x: int | 0 <= x <= U64_MAX

  lemma ChunkStep(done: seq<Range>, from: BlockNumber, to: BlockNumber, chunkBlocks: nat)
    requires chunkBlocks >= 1 && from <= to
    ensures var end := Min(to, from + chunkBlocks - 1);
            done + Chunks(from, to, chunkBlocks) == (done + [Range(from, end)]) + Chunks(end + 1, to, chunkBlocks)
  {
  }

  /** The chunking loop, on 64-bit words. */
  method PlanRanges(fetchFrom: uint64, incoming: uint64, chunkBlocks: uint64) returns (ranges: seq<Range>)
    requires chunkBlocks >= 1
    requires incoming as int + chunkBlocks as int <= U64_MAX
    ensures ranges == Chunks(fetchFrom as nat, incoming as nat, chunkBlocks as nat)
  {
    ranges := [];
    var from := fetchFrom;
    while from <= incoming
      invariant from as int <= incoming as int + 1 || from == fetchFrom
      invariant ranges + Chunks(from as nat, incoming as nat, chunkBlocks as nat)
             == Chunks(fetchFrom as nat, incoming as nat, chunkBlocks as nat)
      decreases incoming as int + 1 - from as int
    {
      var end := from + chunkBlocks - 1;
      var to := if incoming < end then incoming else end;
      ChunkStep(ranges, from as nat, incoming as nat, chunkBlocks as nat);
      ranges := ranges + [Range(from as nat, to as nat)];
      from := to + 1;
    }
  }

  /**
   The planner as the code runs it, on 64-bit words: no operation overflows as long as
   a chunk fits above the head, and the loop computes `Plan`.
   */
  method PlanFetch(latestProcessed: uint64, incoming: uint64, maxBackfill: uint64, chunkBlocks: uint64)
    returns (plan: FetchPlan)
    requires chunkBlocks >= 1
    requires incoming as int + chunkBlocks as int <= U64_MAX
    ensures plan == Plan(latestProcessed as nat, incoming as nat, maxBackfill as nat, chunkBlocks as nat)
  {
    if latestProcessed != 0 && incoming <= latestProcessed {
      return FetchPlan(0, []);
    }

    var fetchFrom := incoming;
    if latestProcessed != 0 {
      var capFloor := (if incoming < maxBackfill then 0 else incoming - maxBackfill) + 1;
      fetchFrom := if latestProcessed + 1 < capFloor then capFloor else latestProcessed + 1;
    }

    var ranges := PlanRanges(fetchFrom, incoming, chunkBlocks);
    var skippedBlocks := if latestProcessed == 0 then 0 else fetchFrom - (latestProcessed + 1);
    plan := FetchPlan(skippedBlocks as nat, ranges);
  }

  lemma {:induction false} ChunksTile(from: BlockNumber, to: BlockNumber, chunkBlocks: nat)
    requires chunkBlocks >= 1 && from <= to + 1
    ensures Tiles(Chunks(from, to, chunkBlocks), from, to + 1)
    ensures forall r :: r in Chunks(from, to, chunkBlocks) ==> r.to < r.from + chunkBlocks
    decreases (to + 1 - from)
  {
    if from <= to {
      ChunksTile(Min(to, from + chunkBlocks - 1) + 1, to, chunkBlocks);
    }
  }

  /** `[from, to]` takes `ceil((to + 1 - from) / chunkBlocks)` requests. */
  lemma {:induction false} ChunksCount(from: BlockNumber, to: BlockNumber, chunkBlocks: nat)
    requires chunkBlocks >= 1 && from <= to + 1
    ensures var n := |Chunks(from, to, chunkBlocks)|;
            (n - 1) * chunkBlocks < to + 1 - from <= n * chunkBlocks
    decreases (to + 1 - from)
  {
    if from <= to {
      var end := Min(to, from + chunkBlocks - 1);
      ChunksCount(end + 1, to, chunkBlocks);
      var k := |Chunks(end + 1, to, chunkBlocks)|;
      assert (k + 1) * chunkBlocks == k * chunkBlocks + chunkBlocks;
      assert (k - 1) * chunkBlocks == k * chunkBlocks - chunkBlocks;
    }
  }

  /**
   A head past a running cursor: the ranges run without gap or overlap up to the head,
   none wider than a chunk, in the fewest requests; together they hold the newest
   `min(gap, cap)` blocks of the gap and the rest is exactly what is reported skipped.
   */
  lemma PlanArithmetic(latestProcessed: BlockNumber, incoming: BlockNumber, maxBackfill: nat, chunkBlocks: nat)
    requires 0 < latestProcessed < incoming && maxBackfill >= 1 && chunkBlocks >= 1
    ensures var plan := Plan(latestProcessed, incoming, maxBackfill, chunkBlocks);
            var total := Min(incoming - latestProcessed, maxBackfill);
            && plan.skippedBlocks + total == incoming - latestProcessed
            && Tiles(plan.ranges, latestProcessed + 1 + plan.skippedBlocks, incoming + 1)
            && (forall r :: r in plan.ranges ==> r.to < r.from + chunkBlocks)
            && (|plan.ranges| - 1) * chunkBlocks < total <= |plan.ranges| * chunkBlocks
  {
    var from := FetchFrom(latestProcessed, incoming, maxBackfill);
    ChunksTile(from, incoming, chunkBlocks);
    ChunksCount(from, incoming, chunkBlocks);
  }

  /** Before anything was processed, exactly the head is fetched; nothing older is planned or skipped. */
  lemma FirstHeadPlan(incoming: BlockNumber, maxBackfill: nat, chunkBlocks: nat)
    requires chunkBlocks >= 1
    ensures Plan(0, incoming, maxBackfill, chunkBlocks) == FetchPlan(0, [Range(incoming, incoming)])
  {
    assert Chunks(incoming + 1, incoming, chunkBlocks) == [];
  }

  /** A head at or below a running cursor plans nothing and skips nothing. */
  lemma StaleHeadPlan(latestProcessed: BlockNumber, incoming: BlockNumber, maxBackfill: nat, chunkBlocks: nat)
    requires chunkBlocks >= 1 && incoming <= latestProcessed && latestProcessed > 0
    ensures Plan(latestProcessed, incoming, maxBackfill, chunkBlocks) == FetchPlan(0, [])
  {
  }

  /** Which blocks a plan fetches, for every cursor and head. */
  lemma PlanCover(latestProcessed: BlockNumber, incoming: BlockNumber, maxBackfill: nat, chunkBlocks: nat,
                  block: BlockNumber)
    requires maxBackfill >= 1 && chunkBlocks >= 1
    ensures Cover(Plan(latestProcessed, incoming, maxBackfill, chunkBlocks).ranges, block)
         == if latestProcessed == 0 then (if block == incoming then 1 else 0)
            else if latestProcessed < block <= incoming && incoming < block + maxBackfill then 1 else 0
  {
    var plan := Plan(latestProcessed, incoming, maxBackfill, chunkBlocks);
    if latestProcessed == 0 || latestProcessed < incoming {
      var from := FetchFrom(latestProcessed, incoming, maxBackfill);
      ChunksTile(from, incoming, chunkBlocks);
      TilesCover(plan.ranges, from, incoming + 1, block);
    }
  }
}
