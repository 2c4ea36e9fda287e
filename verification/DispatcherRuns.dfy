/**
 The block pipeline as a step system: WebSocket headers enter a bounded channel, the
 dispatcher drains it, plans, and resolves one range after another from its two log
 sources. Headers may arrive between any two steps, in any order, with gaps and
 duplicates; a full channel drops them.
 */
module DispatcherRuns {
  import opened Domain
  import opened FetchPlanner
  import opened RangeBisect
  import opened DrainRefinement

  const BLOCK_CHANNEL_CAP := 256

  /** The two per-chain budgets. */
  datatype Config = Config(maxBlockLag: nat, backfillChunkBlocks: nat) {
    predicate Valid() {
      maxBlockLag >= 1 && backfillChunkBlocks >= 1
    }
  }

  datatype Phase =
    | Idle                                            // awaiting `recv`
    | Draining(newest: BlockNumber)                   // inside the `try_recv` loop
    | Fetching(head: BlockNumber, pending: seq<Range>) // inside the loop over the planned ranges

  datatype State = State(
    queue: seq<BlockNumber>,      // the block channel
    latestBlock: BlockNumber,     // the watcher's last observed head
    cursor: BlockNumber,          // `latest_processed_block`
    phase: Phase,
    headers: seq<BlockNumber>,    // history: every header observed
    consumed: seq<BlockNumber>,   // history: every head taken out of the channel
    dropped: seq<BlockNumber>,    // history: every head lost to a full channel
    baseline: BlockNumber,        // history: the first nonzero head planned, 0 before that
    erc20: seq<Span>,             // history: the fate of every block, ERC-20 source
    weth9: seq<Span>              // history: the same for the WETH9 source
  )

  const INIT := State([], 0, 0, Idle, [], [], [], 0, [], [])

  datatype Event =
    | Header(number: BlockNumber)
    | Recv
    | TryRecv
    | FetchNext(erc20: seq<Span>, weth9: seq<Span>)

  /** What `FetchRangeWithBisect` promises about one range, for some provider. */
  ghost predicate Resolution(spans: seq<Span>, range: Range) {
    && Tiles(RangesOf(spans), range.from, range.to + 1)
    && forall i :: 0 <= i < |spans| ==>
         spans[i].fate.Accepted? || (spans[i].fate.Lost? && spans[i].range.from == spans[i].range.to)
  }

  lemma AnsweredIsResolution(provider: Provider, spans: seq<Span>, calls: nat, range: Range)
    requires Tiles(RangesOf(spans), range.from, range.to + 1) && Answered(provider, spans, calls)
    ensures Resolution(spans, range)
  {
    forall i | 0 <= i < |spans|
      ensures spans[i].fate.Accepted? || (spans[i].fate.Lost? && spans[i].range.from == spans[i].range.to)
    {
      assert AnsweredWithin(provider, spans[i], calls);
    }
  }

  /** The skipped part of a gap, as a ledger entry. */
  function SkippedSpan(cursor: BlockNumber, skippedBlocks: nat): seq<Span> {
    if skippedBlocks == 0 then [] else [Span(Range(cursor + 1, cursor + skippedBlocks), Skipped)]
  }

  /** The channel is empty: plan against the newest head drained. */
  function StartPlan(cfg: Config, s: State, newest: BlockNumber): State
    requires cfg.Valid()
  {
    var plan := Plan(s.cursor, newest, cfg.maxBlockLag, cfg.backfillChunkBlocks);
    if plan.ranges == [] then s.(phase := Idle)
    else s.(phase := Fetching(newest, plan.ranges),
            baseline := if s.cursor == 0 then newest else s.baseline,
            erc20 := s.erc20 + SkippedSpan(s.cursor, plan.skippedBlocks),
            weth9 := s.weth9 + SkippedSpan(s.cursor, plan.skippedBlocks))
  }

  /** One atomic step; an event that is not possible in the current phase changes nothing. */
  ghost function Step(cfg: Config, s: State, e: Event): State
    requires cfg.Valid()
  {
    match e
    case Header(number) =>
      var seen := s.(latestBlock := number, headers := s.headers + [number]);
      if |s.queue| < BLOCK_CHANNEL_CAP then seen.(queue := s.queue + [number])
      else seen.(dropped := s.dropped + [number])
    case Recv =>
      if s.phase.Idle? && s.queue != [] then
        s.(phase := Draining(s.queue[0]), queue := s.queue[1..], consumed := s.consumed + [s.queue[0]])
      else s
    case TryRecv =>
      if !s.phase.Draining? then s
      else if s.queue != [] then
        s.(phase := Draining(Max(s.phase.newest, s.queue[0])), queue := s.queue[1..],
           consumed := s.consumed + [s.queue[0]])
      else StartPlan(cfg, s, s.phase.newest)
    case FetchNext(erc20, weth9) =>
      if s.phase.Fetching? && s.phase.pending != []
         && Resolution(erc20, s.phase.pending[0]) && Resolution(weth9, s.phase.pending[0]) then
        var rest := s.phase.pending[1..];
        s.(phase := if rest == [] then Idle else Fetching(s.phase.head, rest),
           cursor := s.phase.pending[0].to,
           erc20 := s.erc20 + erc20, weth9 := s.weth9 + weth9)
      else s
  }

  ghost function Run(cfg: Config, s: State, events: seq<Event>): State
    requires cfg.Valid()
  {
    if events == [] then s
    else Step(cfg, Run(cfg, s, events[..|events| - 1]), events[|events| - 1])
  }

  // ----- the invariant -----

  /** The ledger holds every block of `[baseline, hi)` once and nothing else above block 0. */
  ghost predicate Ledger(spans: seq<Span>, baseline: BlockNumber, hi: nat) {
    && (forall block: nat :: block >= 1 ==>
          Cover(RangesOf(spans), block) == if 1 <= baseline <= block < hi then 1 else 0)
    && (forall i :: 0 <= i < |spans| && spans[i].fate.Lost? ==> spans[i].range.from == spans[i].range.to)
  }

  ghost predicate BothLedgers(s: State, hi: nat) {
    Ledger(s.erc20, s.baseline, hi) && Ledger(s.weth9, s.baseline, hi)
  }

  ghost predicate Inv(s: State) {
    Books(s) && PhaseInv(s)
  }

  /** Every header is consumed, queued or dropped, and the last one is the watcher's head. */
  ghost predicate Books(s: State) {
    && |s.queue| <= BLOCK_CHANNEL_CAP
    && multiset(s.headers) == multiset(s.consumed) + multiset(s.queue) + multiset(s.dropped)
    && (s.headers != [] ==> s.latestBlock == s.headers[|s.headers| - 1])
  }

  /** The cursor against the heads consumed, and how far the ledgers reach. */
  ghost predicate PhaseInv(s: State) {
    match s.phase
    case Idle =>
      && s.cursor == MaxOf(s.consumed)
      && (s.cursor == 0 <==> s.baseline == 0) && s.baseline <= s.cursor
      && BothLedgers(s, s.cursor + 1)
    case Draining(newest) =>
      && Max(s.cursor, newest) == MaxOf(s.consumed)
      && (s.cursor == 0 <==> s.baseline == 0) && s.baseline <= s.cursor
      && BothLedgers(s, s.cursor + 1)
    case Fetching(head, pending) =>
      && head == MaxOf(s.consumed)
      && pending != [] && (s.cursor < pending[0].from || head == s.cursor == 0)
      && Tiles(pending, pending[0].from, head + 1)
      && (s.baseline == 0 <==> head == 0) && s.baseline <= pending[0].from
      && BothLedgers(s, pending[0].from)
  }

  /** A ledger followed by a tiling of the next blocks is a ledger up to their end. */
  lemma LedgerExtends(spans: seq<Span>, baseline: BlockNumber, next: seq<Span>, lo: nat, hi: nat)
    requires Ledger(spans, baseline, lo) && Tiles(RangesOf(next), lo, hi)
    requires baseline <= lo && (baseline == 0 ==> hi <= 1)
    requires forall i :: 0 <= i < |next| && next[i].fate.Lost? ==> next[i].range.from == next[i].range.to
    ensures Ledger(spans + next, baseline, hi)
  {
    assert RangesOf(spans + next) == RangesOf(spans) + RangesOf(next);
    forall block: nat | block >= 1
      ensures Cover(RangesOf(spans + next), block) == if 1 <= baseline <= block < hi then 1 else 0
    {
      CoverConcat(RangesOf(spans), RangesOf(next), block);
      TilesCover(RangesOf(next), lo, hi, block);
    }
  }

  lemma SkippedTiles(cursor: BlockNumber, skippedBlocks: nat)
    ensures Tiles(RangesOf(SkippedSpan(cursor, skippedBlocks)), cursor + 1, cursor + 1 + skippedBlocks)
  {
    if skippedBlocks > 0 {
      var ranges := RangesOf(SkippedSpan(cursor, skippedBlocks));
      assert ranges[1..] == [];
    }
  }

  lemma FirstLedger(spans: seq<Span>, newest: BlockNumber)
    requires Ledger(spans, 0, 1)
    ensures Ledger(spans + [], newest, newest)
  {
    assert spans + [] == spans;
  }

  lemma PlanKeepsInv(cfg: Config, s: State)
    requires cfg.Valid() && Inv(s) && s.phase.Draining?
    ensures Inv(StartPlan(cfg, s, s.phase.newest))
  {
    var newest := s.phase.newest;
    var plan := Plan(s.cursor, newest, cfg.maxBlockLag, cfg.backfillChunkBlocks);
    if s.cursor == 0 {
      FirstHeadPlan(newest, cfg.maxBlockLag, cfg.backfillChunkBlocks);
      assert plan.ranges[1..] == [];
      FirstLedger(s.erc20, newest);
      FirstLedger(s.weth9, newest);
    } else if newest > s.cursor {
      PlanArithmetic(s.cursor, newest, cfg.maxBlockLag, cfg.backfillChunkBlocks);
      var skipped := SkippedSpan(s.cursor, plan.skippedBlocks);
      var lo := s.cursor + 1 + plan.skippedBlocks;
      SkippedTiles(s.cursor, plan.skippedBlocks);
      LedgerExtends(s.erc20, s.baseline, skipped, s.cursor + 1, lo);
      LedgerExtends(s.weth9, s.baseline, skipped, s.cursor + 1, lo);
    }
  }

  lemma FetchKeepsInv(cfg: Config, s: State, erc20: seq<Span>, weth9: seq<Span>)
    requires cfg.Valid() && Inv(s)
    ensures Inv(Step(cfg, s, FetchNext(erc20, weth9)))
  {
    if s.phase.Fetching? && Resolution(erc20, s.phase.pending[0]) && Resolution(weth9, s.phase.pending[0]) {
      var first, rest := s.phase.pending[0], s.phase.pending[1..];
      TilesCover(rest, first.to + 1, s.phase.head + 1, 0);
      LedgerExtends(s.erc20, s.baseline, erc20, first.from, first.to + 1);
      LedgerExtends(s.weth9, s.baseline, weth9, first.from, first.to + 1);
    }
  }

  lemma PopKeepsCounts(queue: seq<BlockNumber>, consumed: seq<BlockNumber>)
    requires queue != []
    ensures multiset(consumed + [queue[0]]) + multiset(queue[1..]) == multiset(consumed) + multiset(queue)
    ensures MaxOf(consumed + [queue[0]]) == Max(MaxOf(consumed), queue[0])
  {
    assert queue == [queue[0]] + queue[1..];
    assert (consumed + [queue[0]])[..|consumed|] == consumed;
  }

  /** A new header is one more on either side of the books, queued or dropped. */
  lemma HeaderCounts(headers: seq<BlockNumber>, rest: multiset<BlockNumber>, held: seq<BlockNumber>,
                     number: BlockNumber)
    requires multiset(headers) == rest + multiset(held)
    ensures multiset(headers + [number]) == rest + multiset(held + [number])
  {
  }

  lemma HeaderKeepsCounts(cfg: Config, s: State, number: BlockNumber)
    requires cfg.Valid() && multiset(s.headers) == multiset(s.consumed) + multiset(s.queue) + multiset(s.dropped)
    ensures var t := Step(cfg, s, Header(number));
            multiset(t.headers) == multiset(t.consumed) + multiset(t.queue) + multiset(t.dropped)
  {
    if |s.queue| < BLOCK_CHANNEL_CAP {
      HeaderCounts(s.headers, multiset(s.consumed) + multiset(s.dropped), s.queue, number);
    } else {
      HeaderCounts(s.headers, multiset(s.consumed) + multiset(s.queue), s.dropped, number);
    }
  }

  lemma HeaderKeepsInv(cfg: Config, s: State, number: BlockNumber)
    requires cfg.Valid() && Inv(s)
    ensures Inv(Step(cfg, s, Header(number)))
  {
    HeaderKeepsCounts(cfg, s, number);
    HeaderKeepsPhase(cfg, s, number);
  }

  lemma HeaderKeepsPhase(cfg: Config, s: State, number: BlockNumber)
    requires cfg.Valid() && PhaseInv(s)
    ensures PhaseInv(Step(cfg, s, Header(number)))
  {
  }

  lemma RecvKeepsInv(cfg: Config, s: State)
    requires cfg.Valid() && Inv(s)
    ensures Inv(Step(cfg, s, Recv))
  {
    if s.phase.Idle? && s.queue != [] {
      PopKeepsCounts(s.queue, s.consumed);
    }
  }

  lemma TryRecvKeepsInv(cfg: Config, s: State)
    requires cfg.Valid() && Inv(s)
    ensures Inv(Step(cfg, s, TryRecv))
  {
    if s.phase.Draining? {
      if s.queue != [] {
        PopKeepsCounts(s.queue, s.consumed);
      } else {
        PlanKeepsInv(cfg, s);
      }
    }
  }

  lemma StepKeepsInv(cfg: Config, s: State, e: Event)
    requires cfg.Valid() && Inv(s)
    ensures Inv(Step(cfg, s, e))
  {
    match e
    case Header(number) => HeaderKeepsInv(cfg, s, number);
    case Recv => RecvKeepsInv(cfg, s);
    case TryRecv => TryRecvKeepsInv(cfg, s);
    case FetchNext(erc20, weth9) => FetchKeepsInv(cfg, s, erc20, weth9);
  }

  lemma {:induction false} RunKeepsInv(cfg: Config, events: seq<Event>)
    requires cfg.Valid()
    ensures Inv(Run(cfg, INIT, events))
  {
    if events != [] {
      RunKeepsInv(cfg, events[..|events| - 1]);
      StepKeepsInv(cfg, Run(cfg, INIT, events[..|events| - 1]), events[|events| - 1]);
    }
  }

  // ----- what holds of every run -----

  /** The block is in one ledger entry and in no second one. */
  ghost predicate InExactlyOne(spans: seq<Span>, block: BlockNumber) {
    exists i :: 0 <= i < |spans| && OnlyEntry(spans, block, i)
  }

  ghost predicate OnlyEntry(spans: seq<Span>, block: BlockNumber, i: nat)
    requires i < |spans|
  {
    spans[i].range.Has(block) && forall j :: 0 <= j < |spans| && spans[j].range.Has(block) ==> j == i
  }

  /** In exactly one entry if `due`, in none otherwise; and a loss is never wider than one block. */
  ghost predicate Accounted(spans: seq<Span>, block: BlockNumber, due: bool) {
    && (due ==> InExactlyOne(spans, block))
    && (!due ==> forall i :: 0 <= i < |spans| ==> !spans[i].range.Has(block))
    && (forall i :: 0 <= i < |spans| && spans[i].fate.Lost? ==> spans[i].range.from == spans[i].range.to)
  }

  lemma LedgerAccounts(spans: seq<Span>, baseline: BlockNumber, hi: nat, block: BlockNumber)
    requires Ledger(spans, baseline, hi) && block >= 1
    ensures Accounted(spans, block, 1 <= baseline <= block < hi)
  {
    var ranges := RangesOf(spans);
    if 1 <= baseline <= block < hi {
      var i := CoverOnce(ranges, block);
      assert OnlyEntry(spans, block, i);
    } else {
      forall i | 0 <= i < |spans| ensures !spans[i].range.Has(block) {
        if ranges[i].Has(block) {
          CoverAtLeast(ranges, i, block);
        }
      }
    }
  }

  /**
   Whole-run accounting. Between cycles the cursor is the largest head consumed, every
   header is consumed, queued or dropped, and for either source every block from the first
   nonzero head planned up to the cursor lies in exactly one accepted response, one lost
   single block or one deliberate skip - and no block above block 0 outside that interval
   was ever asked for.
   */
  lemma WholeRunAccounting(cfg: Config, events: seq<Event>, block: BlockNumber)
    requires cfg.Valid() && Run(cfg, INIT, events).phase.Idle? && block >= 1
    ensures var s := Run(cfg, INIT, events);
            && s.cursor == MaxOf(s.consumed)
            && multiset(s.headers) == multiset(s.consumed) + multiset(s.queue) + multiset(s.dropped)
            && Accounted(s.erc20, block, 1 <= s.baseline <= block <= s.cursor)
            && Accounted(s.weth9, block, 1 <= s.baseline <= block <= s.cursor)
  {
    var s := Run(cfg, INIT, events);
    RunKeepsInv(cfg, events);
    LedgerAccounts(s.erc20, s.baseline, s.cursor + 1, block);
    LedgerAccounts(s.weth9, s.baseline, s.cursor + 1, block);
  }

  /** `t` comes no earlier than `s`: the cursor has not gone back and the ledgers have only grown. */
  ghost predicate NotBefore(s: State, t: State) {
    s.cursor <= t.cursor && s.erc20 <= t.erc20 && s.weth9 <= t.weth9
  }

  lemma StepIsMonotone(cfg: Config, events: seq<Event>, e: Event)
    requires cfg.Valid()
    ensures NotBefore(Run(cfg, INIT, events), Run(cfg, INIT, events + [e]))
  {
    RunKeepsInv(cfg, events);
    RunAppend(cfg, INIT, events, e);
  }

  /** The cursor never goes back, and the ledgers only grow. */
  lemma {:induction false} CursorIsMonotone(cfg: Config, events: seq<Event>, later: seq<Event>)
    requires cfg.Valid()
    ensures NotBefore(Run(cfg, INIT, events), Run(cfg, INIT, events + later))
  {
    if later == [] {
      assert events + later == events;
    } else {
      var earlier, last := later[..|later| - 1], later[|later| - 1];
      assert events + later == (events + earlier) + [last];
      CursorIsMonotone(cfg, events, earlier);
      StepIsMonotone(cfg, events + earlier, last);
    }
  }

  datatype Source = Erc20Source | Weth9Source

  function LedgerOf(s: State, source: Source): seq<Span> {
    match source
    case Erc20Source => s.erc20
    case Weth9Source => s.weth9
  }

  /** Whatever the phase, both ledgers hold every block up to some point once. */
  lemma LedgerReaches(cfg: Config, events: seq<Event>, source: Source) returns (hi: nat)
    requires cfg.Valid()
    ensures var s := Run(cfg, INIT, events); Ledger(LedgerOf(s, source), s.baseline, hi)
  {
    var s := Run(cfg, INIT, events);
    RunKeepsInv(cfg, events);
    hi := if s.phase.Fetching? then s.phase.pending[0].from else s.cursor + 1;
  }

  lemma EntryIsOnly(spans: seq<Span>, baseline: BlockNumber, hi: nat, i: nat, block: BlockNumber)
    requires Ledger(spans, baseline, hi) && block >= 1
    requires i < |spans| && spans[i].range.Has(block)
    ensures OnlyEntry(spans, block, i)
  {
    CoverAtLeast(RangesOf(spans), i, block);
    var j := CoverOnce(RangesOf(spans), block);
    assert RangesOf(spans)[i].Has(block);
  }

  /**
   A lost block other than block 0 is never asked for again, by neither source: in every
   later state, also in the middle of a cycle, the failed single-block fetch is still the
   only entry of its ledger that covers it.
   */
  lemma LossIsNeverRetried(cfg: Config, events: seq<Event>, later: seq<Event>, source: Source, i: nat)
    requires cfg.Valid()
    requires var spans := LedgerOf(Run(cfg, INIT, events), source);
             i < |spans| && spans[i].fate.Lost? && spans[i].range.from >= 1
    ensures var spans := LedgerOf(Run(cfg, INIT, events), source);
            var after := LedgerOf(Run(cfg, INIT, events + later), source);
            && i < |after| && after[i] == spans[i] && spans[i].range.from == spans[i].range.to
            && OnlyEntry(after, spans[i].range.from, i)
  {
    var spans, after := LedgerOf(Run(cfg, INIT, events), source), LedgerOf(Run(cfg, INIT, events + later), source);
    CursorIsMonotone(cfg, events, later);
    assert spans <= after;
    var before := LedgerReaches(cfg, events, source);
    var hi := LedgerReaches(cfg, events + later, source);
    EntryIsOnly(after, Run(cfg, INIT, events + later).baseline, hi, i, spans[i].range.from);
  }

  /** And losses do happen: any first head whose own fetches fail is lost, and the cursor is on it all the same. */
  lemma LossIsReachable(cfg: Config, head: BlockNumber)
    requires cfg.Valid()
    ensures var lost := [Span(Range(head, head), Lost)];
            var s := Run(cfg, INIT, [] + Cycle(head, lost));
            s.phase == Idle && s.cursor == head && s.erc20 == lost && s.weth9 == lost
  {
    FreshCycle(cfg, [], head, [Span(Range(head, head), Lost)]);
  }

  lemma {:induction false} MaxOfBounds(heads: seq<BlockNumber>, head: BlockNumber)
    requires head in heads
    ensures head <= MaxOf(heads)
  {
    if head != heads[|heads| - 1] {
      MaxOfBounds(heads[..|heads| - 1], head);
    }
  }

  /** At rest with nothing queued the dispatcher has caught up with every header, unless the channel dropped one. */
  lemma RestIsHealthy(cfg: Config, events: seq<Event>)
    requires cfg.Valid()
    requires var s := Run(cfg, INIT, events); s.phase.Idle? && s.queue == [] && s.dropped == []
    ensures var s := Run(cfg, INIT, events);
            && (forall head :: head in s.headers ==> head <= s.cursor)
            && s.latestBlock <= s.cursor
  {
    var s := Run(cfg, INIT, events);
    RunKeepsInv(cfg, events);
    forall head | head in s.headers ensures head <= s.cursor {
      assert head in multiset(s.headers);
      MaxOfBounds(s.consumed, head);
    }
    if s.headers != [] {
      assert s.latestBlock in s.headers;
    } else {
      NoHeaderNoHead(cfg, events);
    }
  }

  lemma {:induction false} NoHeaderNoHead(cfg: Config, events: seq<Event>)
    requires cfg.Valid() && Run(cfg, INIT, events).headers == []
    ensures Run(cfg, INIT, events).latestBlock == 0
  {
    if events != [] {
      NoHeaderNoHead(cfg, events[..|events| - 1]);
    }
  }

  /** One head, received, planned alone and resolved by both sources. */
  function Cycle(head: BlockNumber, span: seq<Span>): seq<Event> {
    [Header(head), Recv, TryRecv, FetchNext(span, span)]
  }

  /**
   Block 0 doubles as "nothing processed yet", so it is no baseline: a head of 0 is fetched
   again whatever became of it, and the first nonzero head after it is not backfilled.
   */
  lemma HeadZeroIsNoBaseline(cfg: Config, fate: Fate)
    requires cfg.Valid() && !fate.Skipped?
    ensures var first, again := [Span(Range(0, 0), fate)], [Span(Range(0, 0), Accepted([]))];
            var five := [Span(Range(5, 5), Accepted([]))];
            var s := Run(cfg, INIT, [] + Cycle(0, first) + Cycle(0, again) + Cycle(5, five));
            s.phase == Idle && s.cursor == 5 && s.erc20 == first + again + five
  {
    var first, again := [Span(Range(0, 0), fate)], [Span(Range(0, 0), Accepted([]))];
    FreshCycle(cfg, [], 0, first);
    FreshCycle(cfg, [] + Cycle(0, first), 0, again);
    FreshCycle(cfg, [] + Cycle(0, first) + Cycle(0, again), 5, [Span(Range(5, 5), Accepted([]))]);
  }

  /** The drain ends on head 0 with nothing processed yet. */
  predicate StartsOnZero(s: State, e: Event) {
    e.TryRecv? && s.phase == Draining(0) && s.queue == [] && s.cursor == 0
  }

  ghost function ZeroStarts(cfg: Config, events: seq<Event>): nat
    requires cfg.Valid()
  {
    if events == [] then 0
    else
      var earlier := events[..|events| - 1];
      ZeroStarts(cfg, earlier) + if StartsOnZero(Run(cfg, INIT, earlier), events[|events| - 1]) then 1 else 0
  }

  /** Block 0 is being fetched. */
  predicate ZeroPending(s: State) {
    s.phase.Fetching? && s.phase.pending != [] && s.phase.pending[0].from == 0
  }

  ghost function ZeroFetches(s: State, source: Source): nat {
    Cover(RangesOf(LedgerOf(s, source)), 0) + if ZeroPending(s) then 1 else 0
  }

  lemma CoverSpans(spans: seq<Span>, next: seq<Span>, block: BlockNumber)
    ensures Cover(RangesOf(spans + next), block) == Cover(RangesOf(spans), block) + Cover(RangesOf(next), block)
  {
    assert RangesOf(spans + next) == RangesOf(spans) + RangesOf(next);
    CoverConcat(RangesOf(spans), RangesOf(next), block);
  }

  lemma PlanCountsZero(cfg: Config, s: State, source: Source)
    requires cfg.Valid() && Inv(s) && s.phase.Draining?
    ensures ZeroFetches(StartPlan(cfg, s, s.phase.newest), source)
         == ZeroFetches(s, source) + if s.phase.newest == 0 && s.cursor == 0 then 1 else 0
  {
    var newest := s.phase.newest;
    var plan := Plan(s.cursor, newest, cfg.maxBlockLag, cfg.backfillChunkBlocks);
    var skipped := SkippedSpan(s.cursor, plan.skippedBlocks);
    if s.cursor == 0 {
      FirstHeadPlan(newest, cfg.maxBlockLag, cfg.backfillChunkBlocks);
    } else if newest > s.cursor {
      PlanArithmetic(s.cursor, newest, cfg.maxBlockLag, cfg.backfillChunkBlocks);
    }
    if plan.ranges != [] {
      SkippedTiles(s.cursor, plan.skippedBlocks);
      TilesCover(RangesOf(skipped), s.cursor + 1, s.cursor + 1 + plan.skippedBlocks, 0);
      CoverSpans(LedgerOf(s, source), skipped, 0);
    }
  }

  lemma LaterRanges(pending: seq<Range>, lo: nat, hi: nat)
    requires pending != [] && Tiles(pending, lo, hi)
    ensures pending[1..] != [] ==> pending[1..][0].from == pending[0].to + 1
  {
  }

  ghost predicate CanFetch(s: State, erc20: seq<Span>, weth9: seq<Span>) {
    && s.phase.Fetching? && s.phase.pending != []
    && Resolution(erc20, s.phase.pending[0]) && Resolution(weth9, s.phase.pending[0])
  }

  lemma ResolvedZero(spans: seq<Span>, range: Range)
    requires Resolution(spans, range)
    ensures Cover(RangesOf(spans), 0) == if range.from == 0 then 1 else 0
  {
    TilesCover(RangesOf(spans), range.from, range.to + 1, 0);
  }

  lemma NextIsNotZero(cfg: Config, s: State, erc20: seq<Span>, weth9: seq<Span>)
    requires cfg.Valid() && Inv(s) && CanFetch(s, erc20, weth9)
    ensures !ZeroPending(Step(cfg, s, FetchNext(erc20, weth9)))
  {
    LaterRanges(s.phase.pending, s.phase.pending[0].from, s.phase.head + 1);
  }

  lemma FetchCountsZero(cfg: Config, s: State, erc20: seq<Span>, weth9: seq<Span>, source: Source)
    requires cfg.Valid() && Inv(s) && CanFetch(s, erc20, weth9)
    ensures ZeroFetches(Step(cfg, s, FetchNext(erc20, weth9)), source) == ZeroFetches(s, source)
  {
    var t, first := Step(cfg, s, FetchNext(erc20, weth9)), s.phase.pending[0];
    assert t.erc20 == s.erc20 + erc20 && t.weth9 == s.weth9 + weth9;
    NextIsNotZero(cfg, s, erc20, weth9);
    match source
    case Erc20Source =>
      ResolvedZero(erc20, first);
      CoverSpans(s.erc20, erc20, 0);
    case Weth9Source =>
      ResolvedZero(weth9, first);
      CoverSpans(s.weth9, weth9, 0);
  }

  lemma StepCountsZero(cfg: Config, s: State, e: Event, source: Source)
    requires cfg.Valid() && Inv(s)
    ensures ZeroFetches(Step(cfg, s, e), source) == ZeroFetches(s, source) + if StartsOnZero(s, e) then 1 else 0
  {
    match e
    case TryRecv =>
      if s.phase.Draining? && s.queue == [] {
        PlanCountsZero(cfg, s, source);
      }
    case FetchNext(erc20, weth9) =>
      if CanFetch(s, erc20, weth9) {
        FetchCountsZero(cfg, s, erc20, weth9, source);
      }
    case _ =>
  }

  /**
   How often block 0 is asked for, in every run and for either source: exactly once for each
   drain that ends on head 0 with nothing processed yet - so more than once exactly if two do.
   */
  lemma {:induction false} ZeroIsFetchedPerStart(cfg: Config, events: seq<Event>, source: Source)
    requires cfg.Valid()
    ensures ZeroFetches(Run(cfg, INIT, events), source) == ZeroStarts(cfg, events)
  {
    if events != [] {
      var earlier := events[..|events| - 1];
      ZeroIsFetchedPerStart(cfg, earlier, source);
      RunKeepsInv(cfg, earlier);
      StepCountsZero(cfg, Run(cfg, INIT, earlier), events[|events| - 1], source);
    }
  }

  /** A whole cycle on a cursor still at 0. */
  lemma FreshCycle(cfg: Config, events: seq<Event>, head: BlockNumber, span: seq<Span>)
    requires cfg.Valid() && |span| == 1 && span[0].range == Range(head, head) && !span[0].fate.Skipped?
    requires var s := Run(cfg, INIT, events); s.phase == Idle && s.queue == [] && s.cursor == 0
    ensures var s, t := Run(cfg, INIT, events), Run(cfg, INIT, events + Cycle(head, span));
            && t.phase == Idle && t.queue == [] && t.cursor == head
            && t.erc20 == s.erc20 + span && t.weth9 == s.weth9 + span
  {
    var p1 := events + [Header(head)];
    var p2 := p1 + [Recv];
    var p3 := p2 + [TryRecv];
    assert events + Cycle(head, span) == p3 + [FetchNext(span, span)];
    RunAppend(cfg, INIT, events, Header(head));
    RunAppend(cfg, INIT, p1, Recv);
    RunAppend(cfg, INIT, p2, TryRecv);
    RunAppend(cfg, INIT, p3, FetchNext(span, span));
    FreshSteps(cfg, Run(cfg, INIT, events), head, span);
  }

  lemma FreshSteps(cfg: Config, s: State, head: BlockNumber, span: seq<Span>)
    requires cfg.Valid() && |span| == 1 && span[0].range == Range(head, head) && !span[0].fate.Skipped?
    requires s.phase == Idle && s.queue == [] && s.cursor == 0
    ensures var t := Step(cfg, Step(cfg, Step(cfg, Step(cfg, s, Header(head)), Recv), TryRecv), FetchNext(span, span));
            && t.phase == Idle && t.queue == [] && t.cursor == head
            && t.erc20 == s.erc20 + span && t.weth9 == s.weth9 + span
  {
    var drained := Step(cfg, Step(cfg, s, Header(head)), Recv);
    assert drained.phase == Draining(head) && drained.queue == [] && drained.cursor == 0;
    FirstHeadPlan(head, cfg.maxBlockLag, cfg.backfillChunkBlocks);
    var fetching := Step(cfg, drained, TryRecv);
    assert s.erc20 + [] == s.erc20 && s.weth9 + [] == s.weth9;
    assert fetching.phase == Fetching(head, [Range(head, head)]);
    assert RangesOf(span)[1..] == [] && fetching.phase.pending[1..] == [];
    assert Resolution(span, Range(head, head));
  }

  lemma RunAppend(cfg: Config, s: State, events: seq<Event>, e: Event)
    requires cfg.Valid()
    ensures Run(cfg, s, events + [e]) == Step(cfg, Run(cfg, s, events), e)
  {
    assert (events + [e])[..|events|] == events;
  }
}
