/** The block watcher, the bounded channel and the dispatcher as the objects the code has. */
module EventDispatcher {
  import opened Domain
  import opened FetchPlanner
  import opened RangeBisect
  import opened DrainRefinement
  import opened DispatcherRuns

  datatype EvmNetwork =
    Eth | Bnb | Gnosis | Polygon | Base | Plasma | Arbitrum | Avalanche | Ink | Linea | Sepolia

  function MaxBlockLag(network: EvmNetwork): nat {
    match network
    case Eth => 3
    case Bnb => 40
    case Gnosis => 6
    case Polygon => 15
    case Base => 150
    case Plasma => 30
    case Arbitrum => 120
    case Avalanche => 15
    case Ink => 30
    case Linea => 6
    case Sepolia => 3
  }

  function BackfillChunkBlocks(network: EvmNetwork): nat {
    match network
    case Eth => 2
    case Bnb => 13
    case Gnosis => 2
    case Polygon => 15
    case Base => 50
    case Plasma => 10
    case Arbitrum => 40
    case Avalanche => 5
    case Ink => 10
    case Linea => 2
    case Sepolia => 1
  }

  /** Every chain's chunk is at least one block and fits its backfill cap. */
  lemma ChunkFitsCap(network: EvmNetwork)
    ensures 1 <= BackfillChunkBlocks(network) <= MaxBlockLag(network)
  {
  }

  /** The bounded channel between watcher and dispatcher. */
  class BlockChannel {
    var heads: seq<BlockNumber>

    constructor ()
      ensures heads == []
    {
      heads := [];
    }

    method TrySend(head: BlockNumber) returns (sent: bool)
      modifies this
      ensures sent == (|old(heads)| < BLOCK_CHANNEL_CAP)
      ensures heads == if sent then old(heads) + [head] else old(heads)
    {
      sent := |heads| < BLOCK_CHANNEL_CAP;
      if sent {
        heads := heads + [head];
      }
    }

    method TryRecv() returns (head: Option<BlockNumber>)
      modifies this
      ensures old(heads) == [] ==> head == None && heads == []
      ensures old(heads) != [] ==> head == Some(old(heads)[0]) && heads == old(heads)[1..]
    {
      if heads == [] {
        return None;
      }
      head := Some(heads[0]);
      heads := heads[1..];
    }
  }

  class BlockWatcher {
    const channel: BlockChannel
    var connected: bool
    var latestBlock: BlockNumber
    var overflows: nat
    ghost var headers: seq<BlockNumber>
    ghost var dropped: seq<BlockNumber>

    constructor (channel: BlockChannel)
      ensures this.channel == channel
      ensures !connected && latestBlock == 0 && overflows == 0 && headers == [] && dropped == []
    {
      this.channel := channel;
      connected, latestBlock, overflows := false, 0, 0;
      headers, dropped := [], [];
    }

    /** The watcher's side of a pipeline state. */
    ghost predicate Shows(s: State)
      reads this, channel
    {
      s.queue == channel.heads && s.latestBlock == latestBlock && s.headers == headers && s.dropped == dropped
    }

    /** A header is recorded even when the channel is full; then only its hand-over is dropped. */
    method RecordConnected(head: BlockNumber)
      modifies this, channel
      ensures connected && latestBlock == head && headers == old(headers) + [head]
      ensures |old(channel.heads)| < BLOCK_CHANNEL_CAP ==>
                channel.heads == old(channel.heads) + [head] && dropped == old(dropped) && overflows == old(overflows)
      ensures |old(channel.heads)| >= BLOCK_CHANNEL_CAP ==>
                channel.heads == old(channel.heads) && dropped == old(dropped) + [head]
                  && overflows == old(overflows) + 1
    {
      connected := true;
      latestBlock := head;
      headers := headers + [head];
      var sent := channel.TrySend(head);
      if !sent {
        overflows := overflows + 1;
        dropped := dropped + [head];
      }
    }

    /** Headers arriving one after the other are as many `Header` steps, wherever the dispatcher is in its loop. */
    method HeadersArrive(heads: seq<BlockNumber>, ghost cfg: Config, ghost s: State)
      requires cfg.Valid() && Shows(s)
      modifies this, channel
      ensures Shows(Run(cfg, s, Headers(heads))) && OnlyHeaders(s, Run(cfg, s, Headers(heads)))
      ensures headers == old(headers) + heads && old(channel.heads) <= channel.heads
      ensures forall head :: head in channel.heads ==> head in old(channel.heads) || head in heads
    {
      assert Run(cfg, s, Headers(heads[..0])) == s;
      for i := 0 to |heads|
        invariant Shows(Run(cfg, s, Headers(heads[..i]))) && OnlyHeaders(s, Run(cfg, s, Headers(heads[..i])))
        invariant headers == old(headers) + heads[..i] && old(channel.heads) <= channel.heads
        invariant forall head :: head in channel.heads ==> head in old(channel.heads) || head in heads[..i]
      {
        assert Headers(heads[..i + 1]) == Headers(heads[..i]) + [Header(heads[i])];
        RunAppend(cfg, s, Headers(heads[..i]), Header(heads[i]));
        RecordConnected(heads[i]);
      }
      assert heads[..|heads|] == heads;
    }
  }

  function Headers(heads: seq<BlockNumber>): seq<Event> {
    seq(|heads|, i requires 0 <= i < |heads| => Header(heads[i]))
  }

  /** The dispatcher's side of the state is untouched. */
  ghost predicate OnlyHeaders(s: State, t: State) {
    t == s.(queue := t.queue, latestBlock := t.latestBlock, headers := t.headers, dropped := t.dropped)
  }

  lemma {:induction false} MaxOfCons(head: BlockNumber, heads: seq<BlockNumber>)
    ensures MaxOf([head] + heads) == Max(head, MaxOf(heads))
  {
    if heads == [] {
      assert [head] + heads == [head] && [head][..0] == [];
    } else {
      var all := [head] + heads;
      assert all[..|all| - 1] == [head] + heads[..|heads| - 1];
      MaxOfCons(head, heads[..|heads| - 1]);
    }
  }

  /** `t` is `s` after a drain that took `taken` out of the channel. */
  ghost predicate DrainedTo(s: State, t: State, newest: BlockNumber, taken: seq<BlockNumber>) {
    OnlyHeaders(s.(phase := Draining(newest), consumed := s.consumed + taken), t)
  }

  /**
   `drain_queued_heads`: the channel is emptied into its newest head, and the drained heads
   are counted. Headers may arrive before every poll, `polls[i]` before the i-th; whatever
   arrives, the drain is a run of pipeline steps, and a poll that finds nothing ends it.
   */
  method DrainQueuedHeads(watcher: BlockWatcher, first: BlockNumber, polls: seq<seq<BlockNumber>>,
                          ghost cfg: Config, ghost s: State)
    returns (newest: BlockNumber, drained: nat, ghost taken: seq<BlockNumber>, ghost events: seq<Event>)
    requires cfg.Valid() && watcher.Shows(s) && s.phase == Draining(first)
    modifies watcher, watcher.channel
    ensures watcher.channel.heads == [] && old(watcher.channel.heads) <= taken
    ensures newest == Max(first, MaxOf(taken)) && drained == |taken|
    ensures forall head :: head in taken ==> head in old(watcher.channel.heads) || Arrives(polls, head)
    ensures watcher.Shows(Run(cfg, s, events)) && DrainedTo(s, Run(cfg, s, events), newest, taken)
  {
    newest, drained, taken, events := first, 0, [], [];
    ghost var t, waiting := s, watcher.channel.heads;
    var i := 0;
    while true
      invariant i <= |polls| && t == Run(cfg, s, events)
      invariant watcher.Shows(t) && DrainedTo(s, t, newest, taken)
      invariant newest == Max(first, MaxOf(taken)) && drained == |taken|
      invariant Drains(waiting, polls, taken + t.queue)
      decreases |polls| - i, |watcher.channel.heads|
    {
      if i < |polls| {
        RunConcat(cfg, s, events, Headers(polls[i]));
        ghost var before := t.queue;
        watcher.HeadersArrive(polls[i], cfg, t);
        events := events + Headers(polls[i]);
        t := Run(cfg, s, events);
        DrainsMore(waiting, polls, taken, before, t.queue, i);
        i := i + 1;
      }
      var queued := watcher.channel.TryRecv();
      if queued.None? {
        break;
      }
      DrainStep(cfg, s, t, newest, taken);
      MaxOfAppend(taken, queued.value);
      RunAppend(cfg, s, events, TryRecv);
      drained := drained + 1;
      newest := Max(newest, queued.value);
      taken := taken + [queued.value];
      events := events + [TryRecv];
      t := Run(cfg, s, events);
    }
    assert taken + [] == taken;
  }

  /** The heads taken or still queued: those that were waiting come first, and the others have arrived. */
  ghost predicate Drains(waiting: seq<BlockNumber>, polls: seq<seq<BlockNumber>>, heads: seq<BlockNumber>) {
    waiting <= heads && forall head :: head in heads ==> head in waiting || Arrives(polls, head)
  }

  lemma DrainsMore(waiting: seq<BlockNumber>, polls: seq<seq<BlockNumber>>, taken: seq<BlockNumber>,
                   before: seq<BlockNumber>, after: seq<BlockNumber>, i: nat)
    requires Drains(waiting, polls, taken + before) && before <= after && i < |polls|
    requires forall head :: head in after ==> head in before || head in polls[i]
    ensures Drains(waiting, polls, taken + after)
  {
    forall head | head in taken + after ensures head in waiting || Arrives(polls, head) {
      if head in polls[i] {
        assert Arrives(polls, head);
      } else {
        assert head in taken + before;
      }
    }
  }

  /** One successful poll. */
  lemma DrainStep(cfg: Config, s: State, t: State, newest: BlockNumber, taken: seq<BlockNumber>)
    requires cfg.Valid() && DrainedTo(s, t, newest, taken) && t.queue != []
    ensures var u := Step(cfg, t, TryRecv);
            && DrainedTo(s, u, Max(newest, t.queue[0]), taken + [t.queue[0]])
            && u.queue == t.queue[1..] && u.latestBlock == t.latestBlock && u.headers == t.headers
              && u.dropped == t.dropped
            && taken + t.queue == (taken + [t.queue[0]]) + u.queue
  {
    assert t.queue == [t.queue[0]] + t.queue[1..];
    assert s.consumed + taken + [t.queue[0]] == s.consumed + (taken + [t.queue[0]]);
  }

  ghost predicate Arrives(polls: seq<seq<BlockNumber>>, head: BlockNumber) {
    exists i :: 0 <= i < |polls| && head in polls[i]
  }

  lemma MaxOfAppend(heads: seq<BlockNumber>, head: BlockNumber)
    ensures MaxOf(heads + [head]) == Max(MaxOf(heads), head)
  {
    assert (heads + [head])[..|heads|] == heads;
  }

  lemma {:induction false} RunConcat(cfg: Config, s: State, events: seq<Event>, next: seq<Event>)
    requires cfg.Valid()
    ensures Run(cfg, s, events + next) == Run(cfg, Run(cfg, s, events), next)
  {
    if next == [] {
      assert events + next == events;
    } else {
      assert events + next == (events + next[..|next| - 1]) + [next[|next| - 1]];
      RunConcat(cfg, s, events, next[..|next| - 1]);
      RunAppend(cfg, s, events + next[..|next| - 1], next[|next| - 1]);
    }
  }

  lemma RunCons(cfg: Config, s: State, e: Event, events: seq<Event>)
    requires cfg.Valid()
    ensures Run(cfg, s, [e] + events) == Run(cfg, Step(cfg, s, e), events)
  {
    RunConcat(cfg, s, [e], events);
    RunAppend(cfg, s, [], e);
    assert [] + [e] == [e];
  }

  /** The loop over the planned ranges, or its end. */
  function FetchPhase(head: BlockNumber, pending: seq<Range>): Phase {
    if pending == [] then Idle else Fetching(head, pending)
  }

  lemma FetchStep(cfg: Config, s: State, head: BlockNumber, pending: seq<Range>, erc20: seq<Span>, weth9: seq<Span>)
    requires cfg.Valid() && pending != [] && s.phase == FetchPhase(head, pending)
    requires Resolution(erc20, pending[0]) && Resolution(weth9, pending[0])
    ensures Step(cfg, s, FetchNext(erc20, weth9))
         == s.(phase := FetchPhase(head, pending[1..]), cursor := pending[0].to,
               erc20 := s.erc20 + erc20, weth9 := s.weth9 + weth9)
  {
  }

  /** A log as it reached its source's handler. */
  datatype Handled = Handled(source: Source, log: Log)

  /** What one source's handler saw, in order. */
  function HandledBy(handled: seq<Handled>, source: Source): seq<Log> {
    if handled == [] then []
    else
      var last := handled[|handled| - 1];
      HandledBy(handled[..|handled| - 1], source) + if last.source == source then [last.log] else []
  }

  lemma HandledAppend(handled: seq<Handled>, last: Handled, source: Source)
    ensures HandledBy(handled + [last], source)
         == HandledBy(handled, source) + if last.source == source then [last.log] else []
  {
    assert (handled + [last])[..|handled|] == handled;
  }

  lemma {:induction false} HandledConcat(a: seq<Handled>, b: seq<Handled>, source: Source)
    ensures HandledBy(a + b, source) == HandledBy(a, source) + HandledBy(b, source)
  {
    if b == [] {
      assert a + b == a;
    } else {
      var front, last := b[..|b| - 1], b[|b| - 1];
      assert a + b == (a + front) + [last] && b == front + [last];
      HandledConcat(a, front, source);
      HandledAppend(a + front, last, source);
      HandledAppend(front, last, source);
    }
  }

  /** `join!`: the two hand-overs interleave as the scheduler takes turns, each in its own order. */
  method JoinHandlers(erc20Logs: seq<Log>, weth9Logs: seq<Log>, turns: nat -> bool) returns (handled: seq<Handled>)
    ensures HandledBy(handled, Erc20Source) == erc20Logs && HandledBy(handled, Weth9Source) == weth9Logs
  {
    handled := [];
    var i, j := 0, 0;
    while i < |erc20Logs| || j < |weth9Logs|
      invariant i <= |erc20Logs| && j <= |weth9Logs|
      invariant HandledBy(handled, Erc20Source) == erc20Logs[..i] && HandledBy(handled, Weth9Source) == weth9Logs[..j]
      decreases |erc20Logs| - i + |weth9Logs| - j
    {
      var transfersTurn := j == |weth9Logs| || (i < |erc20Logs| && turns(i + j));
      var next := if transfersTurn then Handled(Erc20Source, erc20Logs[i]) else Handled(Weth9Source, weth9Logs[j]);
      HandledAppend(handled, next, Erc20Source);
      HandledAppend(handled, next, Weth9Source);
      handled := handled + [next];
      if transfersTurn {
        i := i + 1;
      } else {
        j := j + 1;
      }
    }
  }

  /** The handlers saw exactly the accepted batches. */
  ghost predicate Balanced(handled: seq<Handled>, erc20: seq<Span>, weth9: seq<Span>) {
    HandledBy(handled, Erc20Source) == Delivered(erc20) && HandledBy(handled, Weth9Source) == Delivered(weth9)
  }

  ghost function LossesIn(erc20: seq<Span>, weth9: seq<Span>): nat {
    |LostBlocks(erc20)| + |LostBlocks(weth9)|
  }

  lemma BooksBalance(handled: seq<Handled>, erc20: seq<Span>, weth9: seq<Span>,
                     joined: seq<Handled>, erc20Spans: seq<Span>, weth9Spans: seq<Span>)
    requires Balanced(handled, erc20, weth9) && Balanced(joined, erc20Spans, weth9Spans)
    ensures Balanced(handled + joined, erc20 + erc20Spans, weth9 + weth9Spans)
    ensures LossesIn(erc20 + erc20Spans, weth9 + weth9Spans)
      == LossesIn(erc20, weth9) + LossesIn(erc20Spans, weth9Spans)
  {
    SpansConcat(erc20, erc20Spans);
    SpansConcat(weth9, weth9Spans);
    HandledConcat(handled, joined, Erc20Source);
    HandledConcat(handled, joined, Weth9Source);
  }

  /**
   Everything outside the dispatcher that a turn of its loop meets: the headers arriving
   before each poll of the drain and during each planned range, what the two log sources
   answer for each range, and whose hand-over goes next while they run side by side.
   */
  datatype Surroundings = Surroundings(
    polls: seq<seq<BlockNumber>>,
    arrivals: nat -> seq<BlockNumber>,
    transferSource: nat -> Provider,
    weth9Source: nat -> Provider,
    turns: nat -> (nat -> bool)
  )

  class Erc20TransferEventDispatcher {
    const watcher: BlockWatcher
    const maxBlockLag: nat
    const backfillChunkBlocks: nat
    var isActive: bool
    var latestProcessedBlock: BlockNumber
    var missedBlockLogs: nat       // the `event_dispatcher_missed_block_logs_total` counter
    var handled: seq<Handled>      // what reached `on_erc20_log` and `on_weth9_log`, in order
    ghost var consumed: seq<BlockNumber>
    ghost var baseline: BlockNumber
    ghost var erc20: seq<Span>
    ghost var weth9: seq<Span>

    constructor (network: EvmNetwork, watcher: BlockWatcher)
      ensures Valid() && this.watcher == watcher
      ensures maxBlockLag == MaxBlockLag(network) && backfillChunkBlocks == BackfillChunkBlocks(network)
      ensures !isActive && latestProcessedBlock == 0 && consumed == [] && baseline == 0 && erc20 == weth9 == []
    {
      this.watcher := watcher;
      maxBlockLag, backfillChunkBlocks := MaxBlockLag(network), BackfillChunkBlocks(network);
      isActive, latestProcessedBlock, missedBlockLogs, handled := false, 0, 0, [];
      consumed, baseline, erc20, weth9 := [], 0, [], [];
    }

    ghost function Settings(): Config {
      Config(maxBlockLag, backfillChunkBlocks)
    }

    ghost predicate Valid()
      reads this
    {
      && Settings().Valid()
      && Balanced(handled, erc20, weth9)
      && missedBlockLogs == LossesIn(erc20, weth9)
    }

    /** The pipeline's state, at the given point of the loop. */
    ghost function At(phase: Phase): State
      reads this, watcher, watcher.channel
    {
      State(watcher.channel.heads, watcher.latestBlock, latestProcessedBlock, phase,
            watcher.headers, consumed, watcher.dropped, baseline, erc20, weth9)
    }

    /** A header arriving at any point of the loop is the pipeline's `Header` step. */
    method ObserveHeader(head: BlockNumber, ghost phase: Phase)
      requires Valid()
      modifies watcher, watcher.channel
      ensures At(phase) == Step(Settings(), old(At(phase)), Header(head))
    {
      watcher.RecordConnected(head);
    }

    function HealthStatus(): (healthy: bool)
      reads this, watcher
      ensures healthy <==>
                && isActive
                && (watcher.latestBlock == 0 || latestProcessedBlock == 0
                    || watcher.latestBlock <= latestProcessedBlock + maxBlockLag)
    {
      if !isActive then false
      else if watcher.latestBlock == 0 then true
      else if latestProcessedBlock == 0 then true
      else
        var lag := if watcher.latestBlock < latestProcessedBlock then 0 else watcher.latestBlock - latestProcessedBlock;
        lag <= maxBlockLag
    }

    /**
     One turn of the `run` loop, entered with a head waiting, in any surroundings: what it
     does to the shared state is a run of pipeline steps from `Recv` back to `Idle`. Every
     head that was waiting is consumed, and the cursor ends at the larger of itself and the
     newest head the turn consumed.
     */
    method RunOnce(around: Surroundings) returns (ghost events: seq<Event>)
      requires Valid() && FitsWord(around.polls) && watcher.channel.heads != []
      modifies this, watcher, watcher.channel
      ensures Valid() && isActive
      ensures At(Idle) == Run(Settings(), old(At(Idle)), events)
      ensures old(consumed) + old(watcher.channel.heads) <= consumed
      ensures latestProcessedBlock == Max(old(latestProcessedBlock), MaxOf(consumed[|old(consumed)|..]))
    {
      isActive := true;
      var head, plan, planning := NextPlan(around.polls);
      ProcessCursor(latestProcessedBlock, head, maxBlockLag, backfillChunkBlocks);
      events := planning;
      if plan.ranges == [] {
        return;
      }
      ghost var fetching := FetchPlanned(head, plan.ranges, around);
      RunConcat(Settings(), old(At(Idle)), planning, fetching);
      events := planning + fetching;
    }

    ghost predicate Fits(head: BlockNumber) {
      head + backfillChunkBlocks <= U64_MAX
    }

    /** Cursor and cap are 64-bit words, and the heads to come leave room for a chunk below the largest word. */
    ghost predicate FitsWord(polls: seq<seq<BlockNumber>>)
      reads this, watcher, watcher.channel
    {
      && (forall head :: head in watcher.channel.heads || Arrives(polls, head) ==> Fits(head))
      && latestProcessedBlock <= U64_MAX && maxBlockLag <= U64_MAX
    }

    /** `recv`, then the drain. */
    method ReceiveNewest(polls: seq<seq<BlockNumber>>) returns (head: BlockNumber, ghost events: seq<Event>)
      requires Valid() && watcher.channel.heads != []
      modifies watcher, watcher.channel, this`consumed
      ensures Valid() && watcher.channel.heads == []
      ensures old(consumed) + old(watcher.channel.heads) <= consumed
      ensures head == MaxOf(consumed[|old(consumed)|..])
      ensures head in old(watcher.channel.heads) || Arrives(polls, head)
      ensures At(Draining(head)) == Run(Settings(), old(At(Idle)), events)
    {
      ghost var start, heads := At(Idle), watcher.channel.heads;
      var received := watcher.channel.TryRecv();
      ghost var receiving := start.(phase := Draining(heads[0]), queue := heads[1..],
                                         consumed := consumed + [heads[0]]);
      assert Step(Settings(), start, Recv) == receiving;
      var newest, _, taken, drain := DrainQueuedHeads(watcher, received.value, polls, Settings(), receiving);
      RunCons(Settings(), start, Recv, drain);
      NewestOfTurn(consumed, heads, taken);
      consumed := consumed + [heads[0]] + taken;
      head, events := newest, [Recv] + drain;
    }

    /** Receive the newest head and plan against it. */
    method NextPlan(polls: seq<seq<BlockNumber>>) returns (head: BlockNumber, plan: FetchPlan, ghost events: seq<Event>)
      requires Valid() && FitsWord(polls) && watcher.channel.heads != []
      modifies watcher, watcher.channel, this`consumed, this`baseline, this`erc20, this`weth9
      ensures Valid() && old(consumed) + old(watcher.channel.heads) <= consumed
      ensures head == MaxOf(consumed[|old(consumed)|..])
      ensures plan == Plan(latestProcessedBlock, head, maxBlockLag, backfillChunkBlocks)
      ensures forall i :: 0 <= i < |plan.ranges| ==> plan.ranges[i].from <= plan.ranges[i].to
      ensures At(FetchPhase(head, plan.ranges)) == Run(Settings(), old(At(Idle)), events)
    {
      var newest, receiving := ReceiveNewest(polls);
      head := newest;
      assert Fits(head);
      RunAppend(Settings(), old(At(Idle)), receiving, TryRecv);
      events := receiving + [TryRecv];
      plan := PlanFetch(latestProcessedBlock as uint64, head as uint64, maxBlockLag as uint64,
                        backfillChunkBlocks as uint64);
      PlanIsTiled(latestProcessedBlock, head, maxBlockLag, backfillChunkBlocks);
      RecordPlan(head, plan);
    }

    /** The ledgers take note of what the plan skips. */
    ghost method RecordPlan(head: BlockNumber, plan: FetchPlan)
      requires Valid() && plan == Plan(latestProcessedBlock, head, maxBlockLag, backfillChunkBlocks)
      modifies this`baseline, this`erc20, this`weth9
      ensures Valid()
      ensures At(FetchPhase(head, plan.ranges)) == StartPlan(Settings(), old(At(Draining(head))), head)
    {
      if plan.ranges != [] {
        ghost var skipped := SkippedSpan(latestProcessedBlock, plan.skippedBlocks);
        NoLogsSkipped(erc20, skipped);
        NoLogsSkipped(weth9, skipped);
        baseline := if latestProcessedBlock == 0 then head else baseline;
        erc20, weth9 := erc20 + skipped, weth9 + skipped;
      }
    }

    /** Fetch the planned ranges in order, advancing the cursor after each, while headers keep arriving. */
    method FetchPlanned(head: BlockNumber, ranges: seq<Range>, around: Surroundings) returns (ghost events: seq<Event>)
      requires Valid() && ranges != []
      requires forall i :: 0 <= i < |ranges| ==> ranges[i].from <= ranges[i].to
      modifies this`latestProcessedBlock, this`missedBlockLogs, this`handled, this`erc20, this`weth9
      modifies watcher, watcher.channel
      ensures Valid() && latestProcessedBlock == ranges[|ranges| - 1].to
      ensures At(Idle) == Run(Settings(), old(At(Fetching(head, ranges))), events)
    {
      ghost var start := At(Fetching(head, ranges));
      events := [];
      assert ranges[0..] == ranges;
      var i := 0;
      while i < |ranges|
        invariant i <= |ranges| && Valid()
        invariant Run(Settings(), start, events) == At(FetchPhase(head, ranges[i..]))
        invariant i > 0 ==> latestProcessedBlock == ranges[i - 1].to
      {
        assert ranges[i..][1..] == ranges[i + 1..];
        ghost var next := ProcessRange(head, ranges[i..], i, around);
        RunConcat(Settings(), start, events, next);
        events := events + next;
        i := i + 1;
      }
    }

    /** Resolve the first pending range, the i-th planned, from both sources; then move the cursor to its end. */
    method ProcessRange(head: BlockNumber, pending: seq<Range>, i: nat, around: Surroundings)
      returns (ghost events: seq<Event>)
      requires Valid() && pending != [] && pending[0].from <= pending[0].to
      modifies this`latestProcessedBlock, this`missedBlockLogs, this`handled, this`erc20, this`weth9
      modifies watcher, watcher.channel
      ensures Valid() && latestProcessedBlock == pending[0].to
      ensures At(FetchPhase(head, pending[1..])) == Run(Settings(), old(At(FetchPhase(head, pending))), events)
    {
      ghost var start := At(FetchPhase(head, pending));
      var arriving := around.arrivals(i);
      watcher.HeadersArrive(arriving, Settings(), start);
      assert At(FetchPhase(head, pending)) == Run(Settings(), start, Headers(arriving));
      ghost var e := ResolveRange(head, pending, around.transferSource(i), around.weth9Source(i), around.turns(i));
      RunAppend(Settings(), start, Headers(arriving), e);
      events := Headers(arriving) + [e];
    }

    /** Both sources at once; the cursor moves when both are through. */
    method ResolveRange(head: BlockNumber, pending: seq<Range>, transferSource: Provider, weth9Source: Provider,
                        turns: nat -> bool)
      returns (ghost e: Event)
      requires Valid() && pending != [] && pending[0].from <= pending[0].to
      modifies this`latestProcessedBlock, this`missedBlockLogs, this`handled, this`erc20, this`weth9
      ensures Valid() && latestProcessedBlock == pending[0].to
      ensures At(FetchPhase(head, pending[1..])) == Step(Settings(), old(At(FetchPhase(head, pending))), e)
    {
      var erc20Logs, erc20Spans := FetchLogsAndProcess(transferSource, pending[0]);
      var weth9Logs, weth9Spans := FetchLogsAndProcess(weth9Source, pending[0]);
      var joined := JoinHandlers(erc20Logs, weth9Logs, turns);
      BooksBalance(handled, erc20, weth9, joined, erc20Spans, weth9Spans);
      FetchStep(Settings(), At(FetchPhase(head, pending)), head, pending, erc20Spans, weth9Spans);
      e := FetchNext(erc20Spans, weth9Spans);
      handled := handled + joined;
      erc20, weth9 := erc20 + erc20Spans, weth9 + weth9Spans;
      latestProcessedBlock := pending[0].to;
    }

    /** One source: the range is resolved, its logs go to the handler and its losses to the counter. */
    method FetchLogsAndProcess(source: Provider, range: Range) returns (logs: seq<Log>, ghost spans: seq<Span>)
      requires range.from <= range.to
      modifies this`missedBlockLogs
      ensures missedBlockLogs == old(missedBlockLogs) + |LostBlocks(spans)|
      ensures logs == Delivered(spans) && Resolution(spans, range)
    {
      var _, lost, handed, calls, resolved := FetchRangeWithBisect(source, range.from, range.to);
      AnsweredIsResolution(source, resolved, calls, range);
      missedBlockLogs := missedBlockLogs + lost;
      logs, spans := handed, resolved;
    }
  }

  /** What a receive and a drain add to the consumed heads, and the newest among them. */
  lemma NewestOfTurn(consumed: seq<BlockNumber>, heads: seq<BlockNumber>, taken: seq<BlockNumber>)
    requires heads != [] && heads[1..] <= taken
    ensures var all := consumed + [heads[0]] + taken; var turn := all[|consumed|..];
            && consumed + heads <= all
            && MaxOf(turn) == Max(heads[0], MaxOf(taken))
            && (MaxOf(turn) == heads[0] || MaxOf(turn) in taken)
  {
    var all := consumed + [heads[0]] + taken;
    assert all[|consumed|..] == [heads[0]] + taken;
    assert consumed + heads == all[..|consumed + heads|];
    MaxOfCons(heads[0], taken);
    NewestIsQueued([heads[0]] + taken);
  }

  lemma NoLogsSkipped(spans: seq<Span>, skipped: seq<Span>)
    requires |skipped| <= 1 && (skipped != [] ==> skipped[0].fate.Skipped?)
    ensures Delivered(spans + skipped) == Delivered(spans) && LostBlocks(spans + skipped) == LostBlocks(spans)
  {
    SpansConcat(spans, skipped);
    if skipped != [] {
      assert skipped[..0] == [];
    }
  }

  lemma {:induction false} NewestIsQueued(queue: seq<BlockNumber>)
    requires queue != []
    ensures MaxOf(queue) in queue
  {
    if |queue| > 1 {
      NewestIsQueued(queue[..|queue| - 1]);
    } else {
      assert queue[..0] == [];
    }
  }

  lemma {:induction false} TilesNonempty(ranges: seq<Range>, lo: nat, hi: nat)
    requires Tiles(ranges, lo, hi)
    ensures forall i :: 0 <= i < |ranges| ==> ranges[i].from <= ranges[i].to
  {
    if ranges != [] {
      TilesNonempty(ranges[1..], ranges[0].to + 1, hi);
      forall i | 0 <= i < |ranges| ensures ranges[i].from <= ranges[i].to {
        if i > 0 {
          assert ranges[i] == ranges[1..][i - 1];
        }
      }
    }
  }

  lemma PlanIsTiled(cursor: BlockNumber, head: BlockNumber, maxBackfill: nat, chunkBlocks: nat)
    requires maxBackfill >= 1 && chunkBlocks >= 1
    ensures var ranges := Plan(cursor, head, maxBackfill, chunkBlocks).ranges;
            forall i :: 0 <= i < |ranges| ==> ranges[i].from <= ranges[i].to
  {
    if cursor == 0 {
      FirstHeadPlan(head, maxBackfill, chunkBlocks);
    } else if head > cursor {
      var plan := Plan(cursor, head, maxBackfill, chunkBlocks);
      PlanArithmetic(cursor, head, maxBackfill, chunkBlocks);
      TilesNonempty(plan.ranges, cursor + 1 + plan.skippedBlocks, head + 1);
    }
  }
}
