/**
 `fetch_range_with_bisect`: a LIFO worklist that splits rejected ranges. It accounts for
 every block of the range, whatever the provider answers and however often it changes its
 mind; and under a provider that is merely restrictive it delivers exactly what fetching
 block by block would.
 */
module RangeBisect {
  import opened Domain
  import opened FetchPlanner

  datatype Answer = Fetched(batch: seq<Log>) | Failed

  /** A provider may answer each call differently: the first argument counts the calls made so far. */
  type Provider = (nat, BlockNumber, BlockNumber) -> Answer

  /** What became of a range of blocks. */
  datatype Fate =
    | Accepted(batch: seq<Log>)  // one response, covering the whole range
    | Lost                       // a single block whose own fetch failed
    | Skipped                    // never asked for: beyond the backfill cap

  datatype Span = Span(range: Range, fate: Fate)

  function RangesOf(spans: seq<Span>): (ranges: seq<Range>)
    ensures |ranges| == |spans| && forall i :: 0 <= i < |spans| ==> ranges[i] == spans[i].range
  {
    seq(|spans|, i requires 0 <= i < |spans| => spans[i].range)
  }

  /** The logs of the accepted responses, one response after the other. */
  function Delivered(spans: seq<Span>): seq<Log> {
    if spans == [] then []
    else
      var last := spans[|spans| - 1];
      Delivered(spans[..|spans| - 1]) + if last.fate.Accepted? then last.fate.batch else []
  }

  /** The blocks given up, oldest first. */
  function LostBlocks(spans: seq<Span>): seq<BlockNumber> {
    if spans == [] then []
    else
      var last := spans[|spans| - 1];
      LostBlocks(spans[..|spans| - 1]) + if last.fate.Lost? then [last.range.from] else []
  }

  lemma {:induction false} DeliveredConcat(a: seq<Span>, b: seq<Span>)
    ensures Delivered(a + b) == Delivered(a) + Delivered(b)
  {
    if b == [] {
      assert a + b == a;
    } else {
      assert (a + b)[..|a + b| - 1] == a + b[..|b| - 1];
      DeliveredConcat(a, b[..|b| - 1]);
    }
  }

  lemma {:induction false} LostConcat(a: seq<Span>, b: seq<Span>)
    ensures LostBlocks(a + b) == LostBlocks(a) + LostBlocks(b)
  {
    if b == [] {
      assert a + b == a;
    } else {
      assert (a + b)[..|a + b| - 1] == a + b[..|b| - 1];
      LostConcat(a, b[..|b| - 1]);
    }
  }

  lemma SpansConcat(a: seq<Span>, b: seq<Span>)
    ensures RangesOf(a + b) == RangesOf(a) + RangesOf(b)
    ensures Delivered(a + b) == Delivered(a) + Delivered(b)
    ensures LostBlocks(a + b) == LostBlocks(a) + LostBlocks(b)
  {
    DeliveredConcat(a, b);
    LostConcat(a, b);
  }

  /** The span is what the provider really answered in that call. */
  ghost predicate AnsweredBy(provider: Provider, span: Span, call: nat) {
    match span.fate
    case Accepted(batch) => provider(call, span.range.from, span.range.to) == Fetched(batch)
    case Lost => span.range.from == span.range.to && provider(call, span.range.from, span.range.to).Failed?
    case Skipped => false
  }

  /** Every span is the provider's answer to one of the first `calls` calls. */
  ghost predicate Answered(provider: Provider, spans: seq<Span>, calls: nat) {
    forall i :: 0 <= i < |spans| ==> AnsweredWithin(provider, spans[i], calls)
  }

  ghost predicate AnsweredWithin(provider: Provider, span: Span, calls: nat) {
    exists call :: 0 <= call < calls && AnsweredBy(provider, span, call)
  }

  lemma AnsweredLater(provider: Provider, spans: seq<Span>, calls: nat)
    requires Answered(provider, spans, calls)
    ensures Answered(provider, spans, calls + 1)
  {
    forall i | 0 <= i < |spans| ensures AnsweredWithin(provider, spans[i], calls + 1) {
      assert AnsweredWithin(provider, spans[i], calls);
    }
  }

  /** Read from its top down, the stack tiles `[lo, hi)`. */
  ghost predicate StackTiles(pending: seq<Range>, lo: nat, hi: nat) {
    if pending == [] then lo == hi
    else
      var top := pending[|pending| - 1];
      top.from == lo && lo <= top.to < hi && StackTiles(pending[..|pending| - 1], top.to + 1, hi)
  }

  lemma {:induction false} StackLength(pending: seq<Range>, lo: nat, hi: nat)
    requires StackTiles(pending, lo, hi)
    ensures lo + |pending| <= hi
  {
    if pending != [] {
      StackLength(pending[..|pending| - 1], pending[|pending| - 1].to + 1, hi);
    }
  }

  /** Splitting the top range in half keeps the tiling. */
  lemma SplitTop(rest: seq<Range>, from: BlockNumber, mid: BlockNumber, to: BlockNumber, hi: nat)
    requires StackTiles(rest, to + 1, hi) && from <= mid < to < hi
    ensures StackTiles(rest + [Range(mid + 1, to)] + [Range(from, mid)], from, hi)
    ensures from + |rest| + 2 <= hi
  {
    StackLength(rest, to + 1, hi);
    assert (rest + [Range(mid + 1, to)])[..|rest|] == rest;
    var split := rest + [Range(mid + 1, to)] + [Range(from, mid)];
    assert split[..|split| - 1] == rest + [Range(mid + 1, to)];
  }

  lemma {:induction false} TilesLength(ranges: seq<Range>, lo: nat, hi: nat)
    requires Tiles(ranges, lo, hi)
    ensures lo + |ranges| <= hi
  {
    if ranges != [] {
      TilesLength(ranges[1..], ranges[0].to + 1, hi);
    }
  }

  lemma TilesAppend(ranges: seq<Range>, lo: nat, next: Range)
    requires Tiles(ranges, lo, next.from) && next.from <= next.to
    ensures Tiles(ranges + [next], lo, next.to + 1)
  {
    assert Tiles([next], next.from, next.to + 1) by {
      assert [next][1..] == [];
    }
    TilesConcat(ranges, [next], lo, next.from, next.to + 1);
  }

  function Contribution(fate: Fate): seq<Log> {
    if fate.Accepted? then fate.batch else []
  }

  /** One more settled span at the right end. */
  lemma SettleSpan(provider: Provider, spans: seq<Span>, lo: nat, span: Span, calls: nat)
    requires Tiles(RangesOf(spans), lo, span.range.from) && span.range.from <= span.range.to
    requires Answered(provider, spans, calls) && AnsweredBy(provider, span, calls)
    ensures Tiles(RangesOf(spans + [span]), lo, span.range.to + 1)
    ensures Answered(provider, spans + [span], calls + 1)
    ensures Delivered(spans + [span]) == Delivered(spans) + Contribution(span.fate)
    ensures |LostBlocks(spans + [span])| == |LostBlocks(spans)| + if span.fate.Lost? then 1 else 0
  {
    assert (spans + [span])[..|spans|] == spans;
    assert RangesOf(spans + [span]) == RangesOf(spans) + [span.range];
    TilesAppend(RangesOf(spans), lo, span.range);
    AnsweredLater(provider, spans, calls);
    assert AnsweredWithin(provider, span, calls + 1);
  }

  /** What the loop has settled, `[from, next)`, and what is still on the stack, `[next, to]`. */
  ghost predicate Resolving(provider: Provider, from: BlockNumber, to: BlockNumber, next: nat, pending: seq<Range>,
                            spans: seq<Span>, handled: seq<Log>, lostBlocks: nat, calls: nat) {
    && Tiles(RangesOf(spans), from, next)
    && StackTiles(pending, next, to + 1) && next + |pending| <= to + 1
    && Answered(provider, spans, calls)
    && handled == Delivered(spans) && lostBlocks == |LostBlocks(spans)|
    && calls == 2 * |spans| + |pending| - 1
  }

  lemma SplitStep(provider: Provider, from: BlockNumber, to: BlockNumber, next: nat, pending: seq<Range>,
                  spans: seq<Span>, handled: seq<Log>, lostBlocks: nat, calls: nat, mid: BlockNumber)
    requires Resolving(provider, from, to, next, pending, spans, handled, lostBlocks, calls)
    requires pending != [] && pending[|pending| - 1].from <= mid < pending[|pending| - 1].to
    ensures var top, rest := pending[|pending| - 1], pending[..|pending| - 1];
            Resolving(provider, from, to, next, rest + [Range(mid + 1, top.to)] + [Range(top.from, mid)],
                      spans, handled, lostBlocks, calls + 1)
  {
    var top, rest := pending[|pending| - 1], pending[..|pending| - 1];
    SplitTop(rest, top.from, mid, top.to, to + 1);
    AnsweredLater(provider, spans, calls);
  }

  lemma StackPops(pending: seq<Range>, lo: nat, hi: nat)
    requires StackTiles(pending, lo, hi) && pending != []
    ensures var top, rest := pending[|pending| - 1], pending[..|pending| - 1];
            && top.from == lo && lo <= top.to < hi
            && StackTiles(rest, top.to + 1, hi) && top.to + 1 + |rest| <= hi
  {
    StackLength(pending[..|pending| - 1], pending[|pending| - 1].to + 1, hi);
  }

  lemma SettleStep(provider: Provider, from: BlockNumber, to: BlockNumber, next: nat, pending: seq<Range>,
                   spans: seq<Span>, handled: seq<Log>, lostBlocks: nat, calls: nat, fate: Fate)
    requires Resolving(provider, from, to, next, pending, spans, handled, lostBlocks, calls) && pending != []
    requires AnsweredBy(provider, Span(pending[|pending| - 1], fate), calls)
    ensures var top, rest := pending[|pending| - 1], pending[..|pending| - 1];
            Resolving(provider, from, to, top.to + 1, rest, spans + [Span(top, fate)], handled + Contribution(fate),
                      lostBlocks + if fate.Lost? then 1 else 0, calls + 1)
  {
    var top, rest := pending[|pending| - 1], pending[..|pending| - 1];
    StackPops(pending, next, to + 1);
    SettleSpan(provider, spans, from, Span(top, fate), calls);
  }

  // ----- halving -----

  function Size(range: Range): int {
    range.to - range.from + 1
  }

  /** One of the two halves of a range, which differ by at most one block. */
  predicate HalfOf(part: Range, whole: Range) {
    && whole.from <= part.from && part.to <= whole.to && (part.from == whole.from || part.to == whole.to)
    && Size(whole) - 1 <= 2 * Size(part) <= Size(whole) + 1
  }

  /** The range is half of one that the provider refused in that call. */
  ghost predicate HalvedAt(provider: Provider, range: Range, whole: Range, call: nat) {
    whole.from < whole.to && provider(call, whole.from, whole.to).Failed? && HalfOf(range, whole)
  }

  predicate Inside(part: Range, whole: Range) {
    whole.from <= part.from && part.to <= whole.to
  }

  /** Asked for as given, or for the refusal of a range of the root twice as wide. */
  ghost predicate Justified(provider: Provider, root: Range, range: Range, calls: nat) {
    && Inside(range, root)
    && (range == root
        || exists whole: Range, call: nat ::
          call < calls && Inside(whole, root) && HalvedAt(provider, range, whole, call))
  }

  ghost predicate AllJustified(provider: Provider, root: Range, ranges: seq<Range>, calls: nat) {
    forall i {:trigger Justified(provider, root, ranges[i], calls)} ::
      0 <= i < |ranges| ==> Justified(provider, root, ranges[i], calls)
  }

  lemma JustifiedLater(provider: Provider, root: Range, ranges: seq<Range>, calls: nat)
    requires AllJustified(provider, root, ranges, calls)
    ensures AllJustified(provider, root, ranges, calls + 1)
  {
    forall i | 0 <= i < |ranges| ensures Justified(provider, root, ranges[i], calls + 1) {
      assert Justified(provider, root, ranges[i], calls);
    }
  }

  lemma SplitIsJustified(provider: Provider, root: Range, pending: seq<Range>, calls: nat)
    requires AllJustified(provider, root, pending, calls) && pending != []
    requires var top := pending[|pending| - 1]; top.from < top.to && provider(calls, top.from, top.to).Failed?
    ensures var top, rest := pending[|pending| - 1], pending[..|pending| - 1];
            var mid := top.from + (top.to - top.from) / 2;
            AllJustified(provider, root, rest + [Range(mid + 1, top.to)] + [Range(top.from, mid)], calls + 1)
  {
    var top := pending[|pending| - 1];
    var mid := top.from + (top.to - top.from) / 2;
    JustifiedLater(provider, root, pending, calls);
    assert Justified(provider, root, top, calls);
    assert HalvedAt(provider, Range(mid + 1, top.to), top, calls);
    assert HalvedAt(provider, Range(top.from, mid), top, calls);
  }

  lemma SettleIsJustified(provider: Provider, root: Range, pending: seq<Range>, spans: seq<Span>, fate: Fate,
                          calls: nat)
    requires pending != [] && AllJustified(provider, root, pending, calls)
    requires AllJustified(provider, root, RangesOf(spans), calls)
    ensures AllJustified(provider, root, pending[..|pending| - 1], calls + 1)
    ensures AllJustified(provider, root, RangesOf(spans + [Span(pending[|pending| - 1], fate)]), calls + 1)
  {
    JustifiedLater(provider, root, pending, calls);
    JustifiedLater(provider, root, RangesOf(spans), calls);
  }

  /** The books of the worklist and the justification of what is in them. */
  ghost predicate Halving(provider: Provider, from: BlockNumber, to: BlockNumber, next: nat, pending: seq<Range>,
                          spans: seq<Span>, handled: seq<Log>, lostBlocks: nat, calls: nat) {
    && Resolving(provider, from, to, next, pending, spans, handled, lostBlocks, calls)
    && AllJustified(provider, Range(from, to), pending, calls)
    && AllJustified(provider, Range(from, to), RangesOf(spans), calls)
  }

  lemma HalvingSplits(provider: Provider, from: BlockNumber, to: BlockNumber, next: nat, pending: seq<Range>,
                      spans: seq<Span>, handled: seq<Log>, lostBlocks: nat, calls: nat)
    requires Halving(provider, from, to, next, pending, spans, handled, lostBlocks, calls) && pending != []
    requires var top := pending[|pending| - 1]; top.from < top.to && provider(calls, top.from, top.to).Failed?
    ensures var top, rest := pending[|pending| - 1], pending[..|pending| - 1];
            var mid := top.from + (top.to - top.from) / 2;
            Halving(provider, from, to, next, rest + [Range(mid + 1, top.to)] + [Range(top.from, mid)],
                    spans, handled, lostBlocks, calls + 1)
  {
    var top := pending[|pending| - 1];
    SplitStep(provider, from, to, next, pending, spans, handled, lostBlocks, calls, top.from + (top.to - top.from) / 2);
    SplitIsJustified(provider, Range(from, to), pending, calls);
    JustifiedLater(provider, Range(from, to), RangesOf(spans), calls);
  }

  lemma HalvingAccepts(provider: Provider, from: BlockNumber, to: BlockNumber, next: nat, pending: seq<Range>,
                       spans: seq<Span>, handled: seq<Log>, lostBlocks: nat, calls: nat, batch: seq<Log>)
    requires Halving(provider, from, to, next, pending, spans, handled, lostBlocks, calls) && pending != []
    requires var top := pending[|pending| - 1]; provider(calls, top.from, top.to) == Fetched(batch)
    ensures var top, rest := pending[|pending| - 1], pending[..|pending| - 1];
            Halving(provider, from, to, top.to + 1, rest, spans + [Span(top, Accepted(batch))], handled + batch,
                    lostBlocks, calls + 1)
  {
    SettleStep(provider, from, to, next, pending, spans, handled, lostBlocks, calls, Accepted(batch));
    SettleIsJustified(provider, Range(from, to), pending, spans, Accepted(batch), calls);
  }

  lemma HalvingLoses(provider: Provider, from: BlockNumber, to: BlockNumber, next: nat, pending: seq<Range>,
                     spans: seq<Span>, handled: seq<Log>, lostBlocks: nat, calls: nat)
    requires Halving(provider, from, to, next, pending, spans, handled, lostBlocks, calls) && pending != []
    requires var top := pending[|pending| - 1]; top.from >= top.to && provider(calls, top.from, top.to).Failed?
    ensures var top, rest := pending[|pending| - 1], pending[..|pending| - 1];
            Halving(provider, from, to, top.to + 1, rest, spans + [Span(top, Lost)], handled, lostBlocks + 1, calls + 1)
  {
    StackPops(pending, next, to + 1);
    SettleStep(provider, from, to, next, pending, spans, handled, lostBlocks, calls, Lost);
    SettleIsJustified(provider, Range(from, to), pending, spans, Lost, calls);
    assert handled + Contribution(Lost) == handled;
  }

  /** The inner loop: the batch's logs reach the handler one by one, in order. */
  method HandOver(before: seq<Log>, batch: seq<Log>) returns (handled: seq<Log>)
    ensures handled == before + batch
  {
    handled := before;
    for i := 0 to |batch|
      invariant handled == before + batch[..i]
    {
      handled := handled + [batch[i]];
    }
  }

  /** A turn that splits the refused top range, the older half to be taken first. */
  method Split(provider: Provider, ghost from: BlockNumber, ghost to: BlockNumber, ghost next: nat, pending: seq<Range>,
               ghost spans: seq<Span>, ghost handled: seq<Log>, ghost lostBlocks: nat, calls: nat)
    returns (pending': seq<Range>)
    requires Halving(provider, from, to, next, pending, spans, handled, lostBlocks, calls) && pending != []
    requires var top := pending[|pending| - 1]; top.from < top.to && provider(calls, top.from, top.to).Failed?
    ensures Halving(provider, from, to, next, pending', spans, handled, lostBlocks, calls + 1)
    ensures |pending'| == |pending| + 1
  {
    var top, rest := pending[|pending| - 1], pending[..|pending| - 1];
    var mid := top.from + (top.to - top.from) / 2;
    HalvingSplits(provider, from, to, next, pending, spans, handled, lostBlocks, calls);
    pending' := rest + [Range(mid + 1, top.to)] + [Range(top.from, mid)];
  }

  /** A turn that settles the top range: its logs are handed over, or its single block is lost. */
  method Settle(provider: Provider, ghost from: BlockNumber, ghost to: BlockNumber, ghost next: nat,
                pending: seq<Range>,
                ghost spans: seq<Span>, handled: seq<Log>, lostBlocks: nat, calls: nat)
    returns (ghost spans': seq<Span>, handled': seq<Log>, lostBlocks': nat)
    requires Halving(provider, from, to, next, pending, spans, handled, lostBlocks, calls) && pending != []
    requires var top := pending[|pending| - 1]; top.from < top.to ==> provider(calls, top.from, top.to).Fetched?
    ensures var top, rest := pending[|pending| - 1], pending[..|pending| - 1];
            && top.from == next <= top.to
            && Halving(provider, from, to, top.to + 1, rest, spans', handled', lostBlocks', calls + 1)
  {
    var top := pending[|pending| - 1];
    StackPops(pending, next, to + 1);
    match provider(calls, top.from, top.to) {
      case Fetched(batch) =>
        HalvingAccepts(provider, from, to, next, pending, spans, handled, lostBlocks, calls, batch);
        handled' := HandOver(handled, batch);
        spans', lostBlocks' := spans + [Span(top, Accepted(batch))], lostBlocks;
      case Failed =>
        HalvingLoses(provider, from, to, next, pending, spans, handled, lostBlocks, calls);
        spans', handled', lostBlocks' := spans + [Span(top, Lost)], handled, lostBlocks + 1;
    }
  }

  /**
   For any provider: the accepted subranges and the lost single blocks partition the range
   in ascending order; each accepted subrange is one response and each lost block a failed
   fetch of that block alone; the logs reach the handler as the accepted batches in that
   order; the two returned counts are exact; there is one call for each span and one for each
   split, so at most `2n - 1` for `n` blocks; and every span is the whole range or half of one
   that was refused.
   */
  method FetchRangeWithBisect(provider: Provider, from: BlockNumber, to: BlockNumber)
    returns (handledLogs: nat, lostBlocks: nat, handled: seq<Log>, calls: nat, ghost spans: seq<Span>)
    requires from <= to
    ensures Tiles(RangesOf(spans), from, to + 1)
    ensures Answered(provider, spans, calls)
    ensures handled == Delivered(spans) && handledLogs == |handled|
    ensures lostBlocks == |LostBlocks(spans)|
    ensures calls == 2 * |spans| - 1 && calls <= 2 * (to - from + 1) - 1
    ensures AllJustified(provider, Range(from, to), RangesOf(spans), calls)
  {
    handledLogs, lostBlocks, handled, calls, spans := 0, 0, [], 0, [];
    var pending := [Range(from, to)];
    ghost var next: nat := from;
    assert pending[..0] == [];

    while pending != []
      invariant Halving(provider, from, to, next, pending, spans, handled, lostBlocks, calls)
      invariant handledLogs == |handled|
      decreases 2 * (to + 1 - next) - |pending|
    {
      var top := pending[|pending| - 1];
      if top.from < top.to && provider(calls, top.from, top.to).Failed? {
        pending := Split(provider, from, to, next, pending, spans, handled, lostBlocks, calls);
      } else {
        spans, handled, lostBlocks := Settle(provider, from, to, next, pending, spans, handled, lostBlocks, calls);
        handledLogs := |handled|;
        pending, next := pending[..|pending| - 1], top.to + 1;
      }
      calls := calls + 1;
    }
    TilesLength(RangesOf(spans), from, to + 1);
  }

  // ----- a provider that refuses wide ranges and some blocks, but never lies -----

  /** The logs of `[from, to]`, block after block. */
  function LogsBetween(chain: BlockNumber -> seq<Log>, from: BlockNumber, to: BlockNumber): seq<Log>
    decreases (to + 1 - from)
  {
    if from > to then [] else chain(from) + LogsBetween(chain, from + 1, to)
  }

  ghost predicate Touches(bad: iset<BlockNumber>, from: BlockNumber, to: BlockNumber) {
    exists block :: from <= block <= to && block in bad
  }

  /** Fails exactly when the range is wider than `width` or contains a bad block; otherwise answers in full. */
  ghost predicate Restrictive(provider: Provider, chain: BlockNumber -> seq<Log>, width: nat, bad: iset<BlockNumber>) {
    forall call: nat, from: nat, to: nat :: from <= to ==>
      provider(call, from, to) ==
        if to - from + 1 > width || Touches(bad, from, to) then Failed else Fetched(LogsBetween(chain, from, to))
  }

  /** The reference: fetch each block alone, oldest first, and lose exactly the bad ones. */
  ghost function BlockByBlock(chain: BlockNumber -> seq<Log>, bad: iset<BlockNumber>, from: BlockNumber,
                              to: BlockNumber)
    : (seq<Log>, seq<BlockNumber>)
    decreases (to + 1 - from)
  {
    if from > to then ([], [])
    else
      var (logs, lost) := BlockByBlock(chain, bad, from + 1, to);
      if from in bad then (logs, [from] + lost) else (chain(from) + logs, lost)
  }

  /** The reference over `[from, to]` starts with what it does on a clean prefix. */
  lemma {:induction false} CleanPrefix(chain: BlockNumber -> seq<Log>, bad: iset<BlockNumber>,
                                       from: BlockNumber, mid: BlockNumber, to: BlockNumber)
    requires from <= mid + 1 && mid <= to && !Touches(bad, from, mid)
    ensures var (logs, lost) := BlockByBlock(chain, bad, mid + 1, to);
            BlockByBlock(chain, bad, from, to) == (LogsBetween(chain, from, mid) + logs, lost)
    decreases mid + 1 - from
  {
    var (logs, lost) := BlockByBlock(chain, bad, mid + 1, to);
    if from <= mid {
      assert from <= from <= mid;
      CleanPrefix(chain, bad, from + 1, mid, to);
      assert chain(from) + (LogsBetween(chain, from + 1, mid) + logs) == LogsBetween(chain, from, mid) + logs;
    } else {
      assert [] + logs == logs;
    }
  }

  /** What one answered span contributes in front of the reference for the blocks after it. */
  lemma FirstSpan(provider: Provider, chain: BlockNumber -> seq<Log>, width: nat, bad: iset<BlockNumber>,
                  first: Span, call: nat, to: BlockNumber)
    requires width >= 1 && Restrictive(provider, chain, width, bad)
    requires first.range.from <= first.range.to <= to && AnsweredBy(provider, first, call)
    ensures var (logs, lost) := BlockByBlock(chain, bad, first.range.to + 1, to);
            BlockByBlock(chain, bad, first.range.from, to)
              == (Delivered([first]) + logs, LostBlocks([first]) + lost)
  {
    var (logs, lost) := BlockByBlock(chain, bad, first.range.to + 1, to);
    assert [first][..0] == [] && Delivered([]) == [] && LostBlocks([]) == [];
    if first.fate.Accepted? {
      CleanPrefix(chain, bad, first.range.from, first.range.to, to);
      assert Delivered([first]) == first.fate.batch && LostBlocks([first]) == [];
      assert [] + lost == lost;
    } else {
      assert Delivered([first]) == [] && LostBlocks([first]) == [first.range.from];
      assert Touches(bad, first.range.from, first.range.to);
      assert [] + logs == logs;
    }
  }

  lemma PeelFirst(provider: Provider, spans: seq<Span>, calls: nat, lo: nat, hi: nat)
    requires spans != [] && Tiles(RangesOf(spans), lo, hi) && Answered(provider, spans, calls)
    ensures var first, rest := spans[0], spans[1..];
            && first.range.from == lo && lo <= first.range.to < hi
            && Tiles(RangesOf(rest), first.range.to + 1, hi)
            && AnsweredWithin(provider, first, calls) && Answered(provider, rest, calls)
            && Delivered(spans) == Delivered([first]) + Delivered(rest)
            && LostBlocks(spans) == LostBlocks([first]) + LostBlocks(rest)
  {
    var first, rest := spans[0], spans[1..];
    assert spans == [first] + rest;
    SpansConcat([first], rest);
    assert RangesOf(spans)[1..] == RangesOf(rest);
    forall i | 0 <= i < |rest| ensures AnsweredWithin(provider, rest[i], calls) {
      assert rest[i] == spans[i + 1];
    }
  }

  /**
   Any answered tiling refines fetching block by block: the same logs in the same order and
   the same losses. With the contract of `FetchRangeWithBisect` this is what bisecting
   delivers, for every width the provider accepts and every set of blocks it cannot serve.
   */
  lemma {:induction false} BisectRefinesBlockByBlock(provider: Provider, chain: BlockNumber -> seq<Log>, width: nat,
                                                     bad: iset<BlockNumber>, spans: seq<Span>, calls: nat,
                                                     from: BlockNumber, to: BlockNumber)
    requires width >= 1 && Restrictive(provider, chain, width, bad)
    requires from <= to + 1 && Tiles(RangesOf(spans), from, to + 1) && Answered(provider, spans, calls)
    ensures (Delivered(spans), LostBlocks(spans)) == BlockByBlock(chain, bad, from, to)
  {
    if spans != [] {
      var first, rest := spans[0], spans[1..];
      PeelFirst(provider, spans, calls, from, to + 1);
      BisectRefinesBlockByBlock(provider, chain, width, bad, rest, calls, first.range.to + 1, to);
      var call :| 0 <= call < calls && AnsweredBy(provider, first, call);
      FirstSpan(provider, chain, width, bad, first, call, to);
    }
  }

  /** Every span is wide when the provider refuses only what is too wide. */
  lemma JustifiedIsWide(provider: Provider, chain: BlockNumber -> seq<Log>, width: nat, root: Range, range: Range,
                        calls: nat)
    requires width >= 1 && Restrictive(provider, chain, width, iset{})
    requires Justified(provider, root, range, calls)
    ensures range == root || 2 * Size(range) >= width
  {
  }

  lemma {:induction false} WideSpansAreFew(ranges: seq<Range>, lo: nat, hi: nat, width: nat)
    requires Tiles(ranges, lo, hi) && forall i :: 0 <= i < |ranges| ==> 2 * Size(ranges[i]) >= width
    ensures |ranges| * width <= 2 * (hi - lo)
  {
    if ranges != [] {
      WideSpansAreFew(ranges[1..], ranges[0].to + 1, hi, width);
      TilesLength(ranges[1..], ranges[0].to + 1, hi);
      assert |ranges| * width == |ranges[1..]| * width + width;
    }
  }

  /**
   What halving is for: under a provider that refuses exactly the ranges wider than `width`,
   a range that fits is one call, and `n` blocks that do not fit take fewer than `4 n / width`.
   */
  lemma HalvingIsCheap(provider: Provider, chain: BlockNumber -> seq<Log>, width: nat, spans: seq<Span>, calls: nat,
                       from: BlockNumber, to: BlockNumber)
    requires width >= 1 && Restrictive(provider, chain, width, iset{}) && from <= to
    requires Tiles(RangesOf(spans), from, to + 1) && Answered(provider, spans, calls)
    requires calls == 2 * |spans| - 1 && AllJustified(provider, Range(from, to), RangesOf(spans), calls)
    ensures to - from + 1 <= width ==> calls == 1
    ensures to - from + 1 > width ==> (calls + 1) * width <= 4 * (to - from + 1)
  {
    if to - from + 1 <= width {
      FittingIsWhole(provider, chain, width, spans, calls, from, to);
    } else {
      SpansAreWide(provider, chain, width, RangesOf(spans), calls, Range(from, to));
      WideSpansAreFew(RangesOf(spans), from, to + 1, width);
      Doubled(calls + 1, |spans|, width);
    }
  }

  lemma Doubled(a: nat, b: nat, factor: nat)
    requires a == 2 * b
    ensures a * factor == 2 * (b * factor)
  {
  }

  lemma SpansAreWide(provider: Provider, chain: BlockNumber -> seq<Log>, width: nat, ranges: seq<Range>, calls: nat,
                     root: Range)
    requires width >= 1 && Restrictive(provider, chain, width, iset{}) && Size(root) > width
    requires AllJustified(provider, root, ranges, calls)
    ensures forall i :: 0 <= i < |ranges| ==> 2 * Size(ranges[i]) >= width
  {
    forall i | 0 <= i < |ranges| ensures 2 * Size(ranges[i]) >= width {
      JustifiedIsWide(provider, chain, width, root, ranges[i], calls);
    }
  }

  /** A range that fits is never split: half of it could only come from a wider refusal inside it. */
  lemma FittingIsWhole(provider: Provider, chain: BlockNumber -> seq<Log>, width: nat, spans: seq<Span>, calls: nat,
                       from: BlockNumber, to: BlockNumber)
    requires width >= 1 && Restrictive(provider, chain, width, iset{}) && from <= to < from + width
    requires Tiles(RangesOf(spans), from, to + 1)
    requires AllJustified(provider, Range(from, to), RangesOf(spans), calls)
    ensures |spans| == 1
  {
    var root, ranges := Range(from, to), RangesOf(spans);
    forall whole: Range, call: nat | whole.from < whole.to && Inside(whole, root)
      ensures provider(call, whole.from, whole.to).Fetched?
    {
    }
    forall i | 0 <= i < |ranges| ensures ranges[i] == root {
      assert Justified(provider, root, ranges[i], calls);
    }
    TilesLength(ranges[1..], to + 1, to + 1);
  }
}
