/**
 From blocks to balances: the logs the dispatcher's ledgers say were delivered are the logs
 whose transfers are followed to every session.
 */
module EndToEnd {
  import opened Domain
  import opened RangeBisect
  import opened DispatcherRuns
  import opened EventDispatcher
  import N = NoMiss

  /** What handing a log to its source's handler is on the way to the sessions. */
  function Handling(weth9: N.Weth9, handled: Handled): N.Event {
    match handled.source
    case Erc20Source => N.HandleErc20(handled.log)
    case Weth9Source => N.HandleWeth9(weth9, handled.log)
  }

  /** The handlings of a run, in order. */
  function Handlings(events: seq<N.Event>): seq<N.Event> {
    if events == [] then []
    else
      var last := events[|events| - 1];
      Handlings(events[..|events| - 1]) + if last.HandleErc20? || last.HandleWeth9? then [last] else []
  }

  /** The logs handled in the run are those the dispatcher handed over, in that order. */
  ghost predicate Feeds(weth9: N.Weth9, handled: seq<Handled>, events: seq<N.Event>) {
    Handlings(events) == seq(|handled|, k requires 0 <= k < |handled| => Handling(weth9, handled[k]))
  }

  lemma {:induction false} HandlingAt(events: seq<N.Event>, k: nat) returns (i: nat)
    requires k < |Handlings(events)|
    ensures i < |events| && events[i] == Handlings(events)[k]
  {
    var earlier := events[..|events| - 1];
    if k < |Handlings(earlier)| {
      i := HandlingAt(earlier, k);
    } else {
      i := |earlier|;
    }
  }

  lemma {:induction false} DeliveredHas(spans: seq<Span>, i: nat, log: Log)
    requires i < |spans| && spans[i].fate.Accepted? && log in spans[i].fate.batch
    ensures log in Delivered(spans)
  {
    if i < |spans| - 1 {
      DeliveredHas(spans[..|spans| - 1], i, log);
    }
  }

  lemma {:induction false} HandledHas(handled: seq<Handled>, source: Source, log: Log) returns (k: nat)
    requires log in HandledBy(handled, source)
    ensures k < |handled| && handled[k] == Handled(source, log)
  {
    var earlier := handled[..|handled| - 1];
    if log in HandledBy(earlier, source) {
      k := HandledHas(earlier, source, log);
    } else {
      k := |earlier|;
    }
  }

  /** Some event of that content is on its way to the router, or a lookup of it has reached every session. */
  ghost predicate TransferFollowed(s: N.State, transfer: N.Transfer) {
    exists id: nat :: id < |s.produced| && s.produced[id] == transfer && N.Followed(s, id, transfer)
  }

  /**
   No transfer of a delivered log is missed: sender and receiver of an ERC-20 transfer, which
   has three topics, or the owner of a deposit into or withdrawal from the wrapped token.
   */
  ghost predicate LogFollowed(weth9: N.Weth9, s: N.State, source: Source, log: Log) {
    match source
    case Erc20Source =>
      |log.topics| == 3 ==>
        && TransferFollowed(s, N.Transfer(log.topics[1] % N.ADDRESS_RANGE, log.address, log.block))
        && TransferFollowed(s, N.Transfer(log.topics[2] % N.ADDRESS_RANGE, log.address, log.block))
    case Weth9Source =>
      log.address == weth9.contract && |log.topics| >= 2
      && (log.topics[0] == weth9.deposit || log.topics[0] == weth9.withdrawal) ==>
        TransferFollowed(s, N.Transfer(log.topics[1] % N.ADDRESS_RANGE, log.address, log.block))
  }

  lemma ProducedIsFollowed(events: seq<N.Event>, i: nat, transfer: N.Transfer)
    requires i < |events| && transfer in N.Transfers(events[i])
    ensures TransferFollowed(N.Run(events), transfer)
  {
    var transfers := N.Transfers(events[i]);
    var j :| 0 <= j < |transfers| && transfers[j] == transfer;
    N.NothingIsMissed(events, i, j);
  }

  lemma HandledLogIsFollowed(weth9: N.Weth9, handled: seq<Handled>, events: seq<N.Event>, k: nat)
    requires Feeds(weth9, handled, events) && k < |handled|
    ensures LogFollowed(weth9, N.Run(events), handled[k].source, handled[k].log)
  {
    var i := HandlingAt(events, k);
    var log := handled[k].log;
    assert events[i] == Handling(weth9, handled[k]);
    forall transfer | transfer in N.Transfers(events[i]) ensures TransferFollowed(N.Run(events), transfer) {
      ProducedIsFollowed(events, i, transfer);
    }
    forall topic | topic in log.topics {
      N.TransfersExact(events[i], N.Transfer(topic % N.ADDRESS_RANGE, log.address, log.block));
    }
  }

  /** The logs of every accepted response in the books of a dispatcher are followed. */
  lemma AcceptedLogsAreFollowed(weth9: N.Weth9, handled: seq<Handled>, spans: seq<Span>, events: seq<N.Event>,
                                source: Source, i: nat, log: Log)
    requires HandledBy(handled, source) == Delivered(spans) && Feeds(weth9, handled, events)
    requires i < |spans| && spans[i].fate.Accepted? && log in spans[i].fate.batch
    ensures LogFollowed(weth9, N.Run(events), source, log)
  {
    DeliveredHas(spans, i, log);
    var k := HandledHas(handled, source, log);
    HandledLogIsFollowed(weth9, handled, events, k);
  }

  /** What became of a block: skipped, lost alone, or answered - and then every log of the answer is followed. */
  ghost predicate BlockAccounted(weth9: N.Weth9, s: N.State, source: Source, spans: seq<Span>, block: BlockNumber) {
    exists i :: 0 <= i < |spans| && OnlyEntry(spans, block, i)
                && (spans[i].fate.Accepted? ==>
                      forall log :: log in spans[i].fate.batch ==> LogFollowed(weth9, s, source, log))
  }

  /**
   End to end, in every run of the pipeline whose books a dispatcher keeps and every run of
   the sessions fed by what it hands over: between cycles, each block from the first nonzero
   head to the cursor has, for either source, one entry - a deliberate skip, a loss of that
   single block, or a response of which no log's transfer is missed by any session.
   */
  lemma EveryBlockIsAccounted(cfg: Config, past: seq<Event>, handled: seq<Handled>, weth9: N.Weth9,
                              events: seq<N.Event>, source: Source, block: BlockNumber)
    requires cfg.Valid() && Run(cfg, INIT, past).phase.Idle?
    requires var s := Run(cfg, INIT, past);
             Balanced(handled, s.erc20, s.weth9) && 1 <= s.baseline <= block <= s.cursor
    requires Feeds(weth9, handled, events)
    ensures BlockAccounted(weth9, N.Run(events), source, LedgerOf(Run(cfg, INIT, past), source), block)
  {
    var spans := LedgerOf(Run(cfg, INIT, past), source);
    WholeRunAccounting(cfg, past, block);
    assert InExactlyOne(spans, block);
    var i :| 0 <= i < |spans| && OnlyEntry(spans, block, i);
    if spans[i].fate.Accepted? {
      forall log | log in spans[i].fate.batch ensures LogFollowed(weth9, N.Run(events), source, log) {
        AcceptedLogsAreFollowed(weth9, handled, spans, events, source, i, log);
      }
    }
  }
}
