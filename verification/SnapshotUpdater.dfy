/** The two publisher tasks of a session, as loops over what their sources yield. */
module SnapshotUpdater {
  import opened Domain
  import opened R = RpcClient
  import opened S = Subscription
  import opened Replica

  const MULTICALL_FAILED := Error(500)
  const PROVIDER_LOST := Error(503)

  /** A snapshot and everything broadcast on the way to it. */
  datatype Published = Published(snapshot: Snapshot, events: seq<BalanceEvent>)

  /** Merge one result and broadcast its diff, if there is one. */
  function Publish(p: Published, balances: map<Address, nat>, block: BlockNumber): Published {
    var diff := Diff(p.snapshot, balances, block);
    Published(Merge(p.snapshot, balances, block), if diff == map[] then p.events else p.events + [BalanceUpdate(diff)])
  }

  /** One item of the chunk stream: an error is broadcast and the stream goes on. */
  function PublishItem(p: Published, item: BalancesResult): Published {
    match item
    case Balances(balances, block) => Publish(p, balances, block)
    case RpcError => p.(events := p.events + [MULTICALL_FAILED])
  }

  function PublishAll(p: Published, items: seq<BalancesResult>): Published {
    if items == [] then p else PublishItem(PublishAll(p, items[..|items| - 1]), items[|items| - 1])
  }

  // ----- the tasks beside this one -----

  predicate ActsFor(task: Task, e: Event) {
    (e.MergeResult? || e.Broadcast?) && e.task == task
  }

  /** Steps of the rest of the session: the other publisher, list replacements, watch checks, clients. */
  ghost predicate Others(task: Task, events: seq<Event>) {
    forall e :: e in events ==> !ActsFor(task, e)
  }

  /** The shared object is in that state of the session. */
  ghost predicate Shows(sub: Subscription, s: State)
    reads sub
  {
    WellFormed(s) && sub.balancesSnapshot == s.snapshot && sub.tokens == s.Watched() && sub.sent == s.sent
  }

  /** Every step of the session is one call of the shared object, or none. */
  method Perform(sub: Subscription, s: State, e: Event) returns (t: State)
    requires Shows(sub, s)
    modifies sub
    ensures t == Step(s, e) && Shows(sub, t) && sub.cancelled == old(sub.cancelled)
  {
    StepIsWellFormed(s, e);
    t := Step(s, e);
    match e {
      case MergeResult(_, balances, block, _) =>
        if CanMerge(s, e) {
          var _ := sub.UpdateBalancesAndTakeDiff(balances, block);
        }
      case Broadcast(task) =>
        var window := WindowOf(s.open, task);
        if window.Some? {
          sub.SendEvent(BalanceUpdate(s.open[window.value].diff));
        }
      case SendError(code) => sub.SendEvent(Error(code));
      case Replace(tokens) => var _ := sub.SetWatchedTokens(tokens);
      case _ => OnlyMergeAndReplaceMatter(s, e);
    }
  }

  method OthersAct(sub: Subscription, s: State, events: seq<Event>) returns (t: State)
    requires Shows(sub, s)
    modifies sub
    ensures t == Continue(s, events) && Shows(sub, t) && sub.cancelled == old(sub.cancelled)
  {
    t := s;
    assert events[..0] == [];
    for i := 0 to |events|
      invariant t == Continue(s, events[..i]) && Shows(sub, t) && sub.cancelled == old(sub.cancelled)
    {
      assert events[..i + 1] == events[..i] + [events[i]];
      ContinueAppend(s, events[..i], events[i]);
      t := Perform(sub, t, events[i]);
    }
    assert events[..|events|] == events;
  }

  /** The diffs a task has taken and not broadcast. */
  function OwnDiffs(open: seq<Window>, task: Task): seq<map<Address, nat>> {
    if open == [] then []
    else
      var last := open[|open| - 1];
      OwnDiffs(open[..|open| - 1], task) + if last.task == task then [last.diff] else []
  }

  lemma {:induction false} OwnConcat(a: seq<Window>, b: seq<Window>, task: Task)
    ensures OwnDiffs(a + b, task) == OwnDiffs(a, task) + OwnDiffs(b, task)
  {
    if b == [] {
      assert a + b == a;
    } else {
      assert (a + b)[..|a + b| - 1] == a + b[..|b| - 1];
      OwnConcat(a, b[..|b| - 1], task);
    }
  }

  lemma OwnOne(window: Window, task: Task)
    ensures OwnDiffs([window], task) == if window.task == task then [window.diff] else []
  {
    assert [window][..0] == [];
  }

  lemma OwnAround(open: seq<Window>, i: nat, task: Task)
    requires i < |open|
    ensures OwnDiffs(open, task)
      == OwnDiffs(open[..i], task) + OwnDiffs([open[i]], task) + OwnDiffs(open[i + 1..], task)
    ensures OwnDiffs(open[..i] + open[i + 1..], task) == OwnDiffs(open[..i], task) + OwnDiffs(open[i + 1..], task)
  {
    assert open == open[..i] + [open[i]] + open[i + 1..];
    OwnConcat(open[..i] + [open[i]], open[i + 1..], task);
    OwnConcat(open[..i], [open[i]], task);
    OwnConcat(open[..i], open[i + 1..], task);
  }

  lemma {:induction false} NoneIsOwn(open: seq<Window>, task: Task)
    ensures WindowOf(open, task).None? <==> OwnDiffs(open, task) == []
  {
    if open != [] {
      NoneIsOwn(open[..|open| - 1], task);
    }
  }

  lemma OtherMergeKeepsOwn(s: State, e: Event, task: Task)
    requires WellFormed(s) && e.MergeResult? && e.task != task
    ensures OwnDiffs(Step(s, e).open, task) == OwnDiffs(s.open, task)
  {
    var window := Window(e.task, Diff(s.snapshot, e.balances, e.block));
    OwnConcat(s.open, [window], task);
    OwnOne(window, task);
  }

  lemma OwnWithout(open: seq<Window>, i: nat, task: Task)
    requires i < |open| && open[i].task != task
    ensures OwnDiffs(open[..i] + open[i + 1..], task) == OwnDiffs(open, task)
  {
    OwnAround(open, i, task);
    OwnOne(open[i], task);
    assert OwnDiffs(open[..i], task) + [] == OwnDiffs(open[..i], task);
  }

  lemma OtherBroadcastKeepsOwn(s: State, e: Event, task: Task)
    requires WellFormed(s) && e.Broadcast? && e.task != task
    ensures OwnDiffs(Step(s, e).open, task) == OwnDiffs(s.open, task)
  {
    if WindowOf(s.open, e.task).Some? {
      OwnWithout(s.open, WindowOf(s.open, e.task).value, task);
    }
  }

  /** What the others do leaves a task's own diffs alone. */
  lemma OthersKeepOwn(s: State, e: Event, task: Task)
    requires WellFormed(s) && !ActsFor(task, e)
    ensures OwnDiffs(Step(s, e).open, task) == OwnDiffs(s.open, task)
  {
    match e
    case MergeResult(_, _, _, _) => OtherMergeKeepsOwn(s, e, task);
    case Broadcast(_) => OtherBroadcastKeepsOwn(s, e, task);
    case _ =>
  }

  lemma {:induction false} OthersRunKeepsOwn(s: State, events: seq<Event>, task: Task)
    requires WellFormed(s) && Others(task, events)
    ensures OwnDiffs(Continue(s, events).open, task) == OwnDiffs(s.open, task)
  {
    if events != [] {
      var earlier, last := events[..|events| - 1], events[|events| - 1];
      assert events == earlier + [last];
      OthersRunKeepsOwn(s, earlier, task);
      ContinueAppend(s, earlier, last);
      OthersKeepOwn(Continue(s, earlier), last, task);
    }
  }

  // ----- the publishers -----

  /**
   One item of a publisher's source: what the others do until it is there, the item, the
   watched sets its tokens were read under, and what the others do between merge and
   broadcast.
   */
  datatype Round = Round(before: seq<Event>, item: BalancesResult, under: map<Address, nat>, between: seq<Event>)

  /** When it arrives, the item's tokens have been found watched. */
  ghost predicate Ready(s: State, task: Task, r: Round)
    requires WellFormed(s)
  {
    && Others(task, r.before) && Others(task, r.between)
    && (r.item.Balances? ==> Ticketed(Continue(s, r.before), r.item.balances, r.under))
  }

  ghost predicate Ticketed(s: State, balances: map<Address, nat>, under: map<Address, nat>) {
    forall token :: token in balances ==> token in under && (token, under[token]) in s.tickets
  }

  /** Broadcasting a task's only open diff. */
  lemma OwnBroadcast(s: State, task: Task, diff: map<Address, nat>)
    requires WellFormed(s) && OwnDiffs(s.open, task) == if diff == map[] then [] else [diff]
    ensures var t := Step(s, Broadcast(task));
            && WellFormed(t) && OwnDiffs(t.open, task) == [] && t.snapshot == s.snapshot && t.watches == s.watches
            && t.sent == s.sent + if diff == map[] then [] else [BalanceUpdate(diff)]
  {
    StepIsWellFormed(s, Broadcast(task));
    NoneIsOwn(s.open, task);
    if diff != map[] {
      var i := WindowOf(s.open, task).value;
      OwnAround(s.open, i, task);
      OwnOne(s.open[i], task);
      assert OwnDiffs(s.open, task)[|OwnDiffs(s.open[..i], task)|] == s.open[i].diff;
    }
  }

  lemma OwnMerge(s: State, e: Event)
    requires WellFormed(s) && e.MergeResult? && CanMerge(s, e) && OwnDiffs(s.open, e.task) == []
    ensures var diff := Diff(s.snapshot, e.balances, e.block);
            OwnDiffs(Step(s, e).open, e.task) == if diff == map[] then [] else [diff]
  {
    var window := Window(e.task, Diff(s.snapshot, e.balances, e.block));
    OwnConcat(s.open, [window], e.task);
    OwnOne(window, e.task);
  }

  /**
   `update_balances_and_send_event`: merge, let the others act, then broadcast the diff taken
   by the merge, or nothing if it was empty. The diff is the one of the merge, whatever has
   happened to the snapshot since.
   */
  method UpdateBalancesAndSendEvent(sub: Subscription, s: State, e: Event, between: seq<Event>) returns (t: State)
    requires Shows(sub, s) && e.MergeResult? && CanMerge(s, e)
    requires OwnDiffs(s.open, e.task) == [] && Others(e.task, between)
    modifies sub
    ensures t == AfterPublish(s, e, between)
    ensures Shows(sub, t) && OwnDiffs(t.open, e.task) == [] && sub.cancelled == old(sub.cancelled)
  {
    var diff, merged := TakeDiff(sub, s, e);
    OwnMerge(s, e);
    var waited := OthersAct(sub, merged, between);
    OthersRunKeepsOwn(merged, between, e.task);
    t := SendDiff(sub, waited, e.task, diff);
  }

  /** The merge. */
  method TakeDiff(sub: Subscription, s: State, e: Event) returns (diff: map<Address, nat>, t: State)
    requires Shows(sub, s) && e.MergeResult? && CanMerge(s, e)
    modifies sub
    ensures t == Step(s, e) && Shows(sub, t) && sub.cancelled == old(sub.cancelled)
    ensures diff == Diff(s.snapshot, e.balances, e.block)
  {
    StepIsWellFormed(s, e);
    diff := sub.UpdateBalancesAndTakeDiff(e.balances, e.block);
    t := Step(s, e);
  }

  /** The broadcast of the diff taken, unless it is empty. */
  method SendDiff(sub: Subscription, s: State, task: Task, diff: map<Address, nat>) returns (t: State)
    requires Shows(sub, s) && OwnDiffs(s.open, task) == if diff == map[] then [] else [diff]
    modifies sub
    ensures t == Step(s, Broadcast(task)) && Shows(sub, t) && sub.cancelled == old(sub.cancelled)
    ensures OwnDiffs(t.open, task) == []
  {
    OwnBroadcast(s, task, diff);
    if diff != map[] {
      sub.SendEvent(BalanceUpdate(diff));
    }
    t := Step(s, Broadcast(task));
  }

  lemma MergeShows(s: State, e: Event)
    requires WellFormed(s) && e.MergeResult? && CanMerge(s, e) && OwnDiffs(s.open, e.task) == []
    ensures var t, diff := Step(s, e), Diff(s.snapshot, e.balances, e.block);
            && WellFormed(t) && t.snapshot == Merge(s.snapshot, e.balances, e.block) && t.watches == s.watches
            && t.sent == s.sent
            && OwnDiffs(t.open, e.task) == if diff == map[] then [] else [diff]
  {
    StepIsWellFormed(s, e);
    OwnMerge(s, e);
  }

  /** A merge, what the others do, and the broadcast. */
  ghost function AfterPublish(s: State, e: Event, between: seq<Event>): (t: State)
    requires WellFormed(s) && e.MergeResult?
    ensures WellFormed(t)
  {
    StepIsWellFormed(s, e);
    var waited := Continue(Step(s, e), between);
    StepIsWellFormed(waited, Broadcast(e.task));
    Step(waited, Broadcast(e.task))
  }

  lemma PublishingSteps(s: State, e: Event, between: seq<Event>)
    requires WellFormed(s) && e.MergeResult?
    ensures Continue(s, [e] + between + [Broadcast(e.task)]) == AfterPublish(s, e, between)
  {
    StepIsWellFormed(s, e);
    ContinueAppend(s, [], e);
    assert [] + [e] == [e];
    ContinueConcat(s, [e], between);
    ContinueAppend(s, [e] + between, Broadcast(e.task));
  }

  /** The session after a round. */
  ghost function AfterRound(s: State, task: Task, r: Round): (t: State)
    requires WellFormed(s)
    ensures WellFormed(t)
  {
    var waited := Continue(s, r.before);
    match r.item
    case Balances(balances, block) => AfterPublish(waited, MergeResult(task, balances, block, r.under), r.between)
    case RpcError => AfterError(waited, MULTICALL_FAILED.code)
  }

  ghost function AfterError(s: State, code: nat): (t: State)
    requires WellFormed(s)
    ensures WellFormed(t)
  {
    StepIsWellFormed(s, SendError(code));
    Step(s, SendError(code))
  }

  ghost function AfterAll(s: State, task: Task, rounds: seq<Round>): (t: State)
    requires WellFormed(s)
    ensures WellFormed(t)
  {
    if rounds == [] then s else AfterRound(AfterAll(s, task, rounds[..|rounds| - 1]), task, rounds[|rounds| - 1])
  }

  lemma AfterAllAppend(s: State, task: Task, rounds: seq<Round>, r: Round)
    requires WellFormed(s)
    ensures AfterAll(s, task, rounds + [r]) == AfterRound(AfterAll(s, task, rounds), task, r)
    ensures AllReady(s, task, rounds) && Ready(AfterAll(s, task, rounds), task, r) ==> AllReady(s, task, rounds + [r])
  {
    assert (rounds + [r])[..|rounds|] == rounds;
  }

  ghost predicate AllReady(s: State, task: Task, rounds: seq<Round>)
    requires WellFormed(s)
  {
    rounds != [] ==>
      && AllReady(s, task, rounds[..|rounds| - 1])
      && Ready(AfterAll(s, task, rounds[..|rounds| - 1]), task, rounds[|rounds| - 1])
  }

  lemma {:induction false} ReadyAt(s: State, task: Task, rounds: seq<Round>, i: nat)
    requires WellFormed(s) && i < |rounds| && AllReady(s, task, rounds)
    ensures Ready(AfterAll(s, task, rounds[..i]), task, rounds[i])
  {
    if i < |rounds| - 1 {
      var front := rounds[..|rounds| - 1];
      assert front[..i] == rounds[..i];
      ReadyAt(s, task, front, i);
    }
  }

  lemma ErrorKeepsOwn(s: State, task: Task, code: nat)
    requires WellFormed(s)
    ensures OwnDiffs(AfterError(s, code).open, task) == OwnDiffs(s.open, task)
  {
  }

  lemma ReadyToMerge(s: State, task: Task, balances: map<Address, nat>, block: BlockNumber, under: map<Address, nat>)
    requires WellFormed(s) && OwnDiffs(s.open, task) == [] && Ticketed(s, balances, under)
    ensures CanMerge(s, MergeResult(task, balances, block, under))
  {
    NoneIsOwn(s.open, task);
  }

  /** The diff takes one view to the other and names exactly the tokens whose amount changed or appeared. */
  ghost predicate IsChange(before: map<Address, nat>, after: map<Address, nat>, diff: map<Address, nat>) {
    && before + diff == after
    && forall token :: token in diff <==> token in after && (token !in before || before[token] != after[token])
  }

  lemma PublishSends(s: State, e: Event, between: seq<Event>)
    requires WellFormed(s) && e.MergeResult? && CanMerge(s, e)
    requires OwnDiffs(s.open, e.task) == [] && Others(e.task, between) && WellFormed(Step(s, e))
    ensures var diff := Diff(s.snapshot, e.balances, e.block);
            AfterPublish(s, e, between).sent
              == Continue(Step(s, e), between).sent + if diff == map[] then [] else [BalanceUpdate(diff)]
  {
    OwnMerge(s, e);
    OthersRunKeepsOwn(Step(s, e), between, e.task);
    OwnBroadcast(Continue(Step(s, e), between), e.task, Diff(s.snapshot, e.balances, e.block));
  }

  lemma DiffIsTheChange(snapshot: Snapshot, balances: map<Address, nat>, block: BlockNumber)
    ensures var diff, before, after := Diff(snapshot, balances, block), Amounts(snapshot),
      Amounts(Merge(snapshot, balances, block));
            IsChange(before, after, diff) && (diff == map[] <==> before == after)
  {
    DiffIsExact(snapshot, balances, block);
    Neutral(Amounts(snapshot));
  }

  /**
   What a merge and its broadcast amount to: what is broadcast is exactly the change the merge
   made to the visible amounts, and when it made none nothing is sent.
   */
  lemma PublishedIsTheChange(s: State, e: Event, between: seq<Event>)
    requires WellFormed(s) && e.MergeResult? && CanMerge(s, e)
    requires OwnDiffs(s.open, e.task) == [] && Others(e.task, between) && WellFormed(Step(s, e))
    ensures var before, after := Amounts(s.snapshot), Amounts(Step(s, e).snapshot);
            var waited, sent := Continue(Step(s, e), between).sent, AfterPublish(s, e, between).sent;
            if before == after then sent == waited
            else exists diff :: IsChange(before, after, diff) && sent == waited + [BalanceUpdate(diff)]
  {
    var diff := Diff(s.snapshot, e.balances, e.block);
    PublishSends(s, e, between);
    DiffIsTheChange(s.snapshot, e.balances, e.block);
    assert Step(s, e).snapshot == Merge(s.snapshot, e.balances, e.block) by {
      MergeShows(s, e);
    }
    assert IsChange(Amounts(s.snapshot), Amounts(Step(s, e).snapshot), diff);
  }

  /** One round of a publisher: balances are merged and broadcast, an error is only broadcast. */
  method PublishRound(sub: Subscription, s: State, task: Task, r: Round) returns (t: State)
    requires Shows(sub, s) && OwnDiffs(s.open, task) == [] && Ready(s, task, r)
    modifies sub
    ensures t == AfterRound(s, task, r)
    ensures r.item.RpcError? ==>
              && sub.sent == Continue(s, r.before).sent + [Error(500)]
              && sub.balancesSnapshot == Continue(s, r.before).snapshot
    ensures Shows(sub, t) && OwnDiffs(t.open, task) == [] && sub.cancelled == old(sub.cancelled)
  {
    var waited := OthersAct(sub, s, r.before);
    OthersRunKeepsOwn(s, r.before, task);
    match r.item {
      case Balances(balances, block) =>
        ReadyToMerge(waited, task, balances, block, r.under);
        t := UpdateBalancesAndSendEvent(sub, waited, MergeResult(task, balances, block, r.under), r.between);
      case RpcError =>
        ErrorKeepsOwn(waited, task, MULTICALL_FAILED.code);
        t := Perform(sub, waited, SendError(MULTICALL_FAILED.code));
    }
  }

  /** What the others do before a chunk is read and between its merge and its broadcast. */
  datatype Meanwhile = Meanwhile(before: seq<Event>, between: seq<Event>)

  /** A chunk's item only names the chunk's tokens. */
  lemma ItemOfChunk(chunk: seq<Address>, aggregate: Aggregate)
    requires aggregate.Aggregated?
    ensures forall token :: token in ChunkResult(chunk, aggregate).balances ==> token in chunk
  {
    forall token | token in Mapped(chunk, aggregate.results) ensures token in chunk {
      OwnSubcallOnly(chunk, aggregate.results, token);
    }
  }

  lemma {:induction false} ChunksHold(tokens: seq<Address>, size: nat, i: nat)
    requires size >= 1 && i < |Chunks(tokens, size)|
    ensures forall token :: token in Chunks(tokens, size)[i] ==> token in tokens
    decreases |tokens|
  {
    var n := Min(size, |tokens|);
    if i > 0 {
      ChunksHold(tokens[n..], size, i - 1);
    }
  }

  lemma ChunkIsWatched(tokens: seq<Address>, i: nat)
    requires i < |Chunks(Sorted(tokens), MULTICALL_CHUNK_SIZE)|
    ensures forall token :: token in Chunks(Sorted(tokens), MULTICALL_CHUNK_SIZE)[i] ==> token in tokens
  {
    ChunksHold(Sorted(tokens), MULTICALL_CHUNK_SIZE, i);
    SortedSorts(tokens);
    forall token | token in Sorted(tokens) ensures token in tokens {
      assert token in multiset(Sorted(tokens));
    }
  }

  /**
   The rounds of a refresh: the chunks of the token list in order, each with its own answer,
   read under one version.
   */
  ghost predicate RefreshRounds(rounds: seq<Round>, tokens: seq<Address>, provider: (nat, seq<Address>) -> Aggregate,
                                others: nat -> Meanwhile, version: nat) {
    var chunks := Chunks(Sorted(tokens), MULTICALL_CHUNK_SIZE);
    && |rounds| <= |chunks|
    && forall i :: 0 <= i < |rounds| ==>
      rounds[i] == RefreshRound(chunks[i], provider(i, chunks[i]), others(i), version)
  }

  function RefreshRound(chunk: seq<Address>, aggregate: Aggregate, others: Meanwhile, version: nat): Round {
    Round(others.before, ChunkResult(chunk, aggregate), map token | token in chunk :: version, others.between)
  }

  lemma {:induction false} OthersRunKeepsTickets(s: State, events: seq<Event>)
    requires WellFormed(s)
    ensures s.tickets <= Continue(s, events).tickets
  {
    if events != [] {
      var earlier, last := events[..|events| - 1], events[|events| - 1];
      OthersRunKeepsTickets(s, earlier);
      StepKeepsTickets(Continue(s, earlier), last);
    }
  }

  lemma StepKeepsTickets(s: State, e: Event)
    requires WellFormed(s)
    ensures s.tickets <= Step(s, e).tickets
  {
  }

  lemma PublishKeepsTickets(s: State, e: Event, between: seq<Event>)
    requires WellFormed(s) && e.MergeResult?
    ensures s.tickets <= AfterPublish(s, e, between).tickets
  {
    StepIsWellFormed(s, e);
    StepKeepsTickets(s, e);
    OthersRunKeepsTickets(Step(s, e), between);
    StepKeepsTickets(Continue(Step(s, e), between), Broadcast(e.task));
  }

  lemma RoundKeepsTickets(s: State, task: Task, r: Round)
    requires WellFormed(s)
    ensures s.tickets <= AfterRound(s, task, r).tickets
  {
    var waited := Continue(s, r.before);
    OthersRunKeepsTickets(s, r.before);
    match r.item
    case Balances(balances, block) =>
      PublishKeepsTickets(waited, MergeResult(task, balances, block, r.under), r.between);
    case RpcError => StepKeepsTickets(waited, SendError(MULTICALL_FAILED.code));
  }

  lemma RefreshIsReady(s: State, chunk: seq<Address>, aggregate: Aggregate, others: Meanwhile, version: nat)
    requires WellFormed(s) && Others(SnapshotUpdater, others.before) && Others(SnapshotUpdater, others.between)
    requires forall token :: token in chunk ==> (token, version) in s.tickets
    ensures Ready(s, SnapshotUpdater, RefreshRound(chunk, aggregate, others, version))
  {
    OthersRunKeepsTickets(s, others.before);
    if aggregate.Aggregated? {
      ItemOfChunk(chunk, aggregate);
    }
  }

  /**
   `fetch_balances_and_broadcast`: the watched tokens are copied once, in whatever order the
   set yields them; then chunk after chunk is read, merged and broadcast, with the others
   acting before every chunk and between every merge and its broadcast, until the stream ends
   or the refresh is cancelled after `taken` chunks.
   */
  method FetchBalancesAndBroadcast(sub: Subscription, s: State, tokens: seq<Address>,
                                   provider: (nat, seq<Address>) -> Aggregate, others: nat -> Meanwhile, taken: nat)
    returns (t: State, ghost rounds: seq<Round>)
    requires Shows(sub, s) && OwnDiffs(s.open, SnapshotUpdater) == []
    requires forall token :: token in tokens <==> token in sub.tokens
    requires forall i :: Others(SnapshotUpdater, others(i).before) && Others(SnapshotUpdater, others(i).between)
    modifies sub
    ensures RefreshRounds(rounds, tokens, provider, others, |s.watches| - 1)
    ensures |rounds| == Min(taken, |Chunks(Sorted(tokens), MULTICALL_CHUNK_SIZE)|)
    ensures t == AfterAll(Copied(s), SnapshotUpdater, rounds) && AllReady(Copied(s), SnapshotUpdater, rounds)
    ensures Shows(sub, t) && OwnDiffs(t.open, SnapshotUpdater) == [] && sub.cancelled == old(sub.cancelled)
  {
    var version := |s.watches| - 1;
    var chunks := Chunks(Sorted(tokens), MULTICALL_CHUNK_SIZE);
    t := Perform(sub, s, CheckWatched(sub.tokens));
    ghost var start := t;
    CopyTickets(s);
    rounds := [];
    var i := 0;
    while i < |chunks| && i < taken
      invariant i == |rounds| <= |chunks| && i <= taken
      invariant Refreshing(start, t, rounds, tokens, provider, others, version)
      invariant Shows(sub, t) && OwnDiffs(t.open, SnapshotUpdater) == [] && sub.cancelled == old(sub.cancelled)
    {
      ChunkIsWatched(tokens, i);
      ghost var before, round := t, RefreshRound(chunks[i], provider(i, chunks[i]), others(i), version);
      t := RefreshChunk(sub, t, chunks[i], provider(i, chunks[i]), others(i), version);
      RefreshingMore(start, before, rounds, tokens, provider, others, version);
      rounds := rounds + [round];
      i := i + 1;
    }
  }

  /** A refresh under way: the rounds so far, and the tickets of the copied list. */
  ghost predicate Refreshing(start: State, t: State, rounds: seq<Round>, tokens: seq<Address>,
                             provider: (nat, seq<Address>) -> Aggregate, others: nat -> Meanwhile, version: nat)
    requires WellFormed(start)
  {
    && RefreshRounds(rounds, tokens, provider, others, version)
    && t == AfterAll(start, SnapshotUpdater, rounds) && AllReady(start, SnapshotUpdater, rounds)
    && forall token :: token in tokens ==> (token, version) in t.tickets
  }

  lemma RefreshingMore(start: State, t: State, rounds: seq<Round>, tokens: seq<Address>,
                       provider: (nat, seq<Address>) -> Aggregate, others: nat -> Meanwhile, version: nat)
    requires WellFormed(start) && Refreshing(start, t, rounds, tokens, provider, others, version)
    requires |rounds| < |Chunks(Sorted(tokens), MULTICALL_CHUNK_SIZE)|
    requires var meanwhile := others(|rounds|);
             Others(SnapshotUpdater, meanwhile.before) && Others(SnapshotUpdater, meanwhile.between)
    ensures var i, chunks := |rounds|, Chunks(Sorted(tokens), MULTICALL_CHUNK_SIZE);
            var round := RefreshRound(chunks[i], provider(i, chunks[i]), others(i), version);
            Refreshing(start, AfterRound(t, SnapshotUpdater, round), rounds + [round], tokens, provider, others,
                       version)
  {
    var i, chunks := |rounds|, Chunks(Sorted(tokens), MULTICALL_CHUNK_SIZE);
    var round := RefreshRound(chunks[i], provider(i, chunks[i]), others(i), version);
    ChunkIsWatched(tokens, i);
    RefreshIsReady(t, chunks[i], provider(i, chunks[i]), others(i), version);
    RoundKeepsTickets(t, SnapshotUpdater, round);
    AfterAllAppend(start, SnapshotUpdater, rounds, round);
    RefreshAppend(rounds, round, tokens, provider, others, version);
  }

  /** One chunk of a refresh: read, merged and broadcast. */
  method RefreshChunk(sub: Subscription, s: State, chunk: seq<Address>, aggregate: Aggregate, others: Meanwhile,
                      version: nat)
    returns (t: State)
    requires Shows(sub, s) && OwnDiffs(s.open, SnapshotUpdater) == []
    requires Others(SnapshotUpdater, others.before) && Others(SnapshotUpdater, others.between)
    requires forall token :: token in chunk ==> (token, version) in s.tickets
    modifies sub
    ensures t == AfterRound(s, SnapshotUpdater, RefreshRound(chunk, aggregate, others, version))
      && s.tickets <= t.tickets
    ensures Shows(sub, t) && OwnDiffs(t.open, SnapshotUpdater) == [] && sub.cancelled == old(sub.cancelled)
  {
    var item, _ := FetchChunk(chunk, aggregate);
    var round := Round(others.before, item, map token | token in chunk :: version, others.between);
    RefreshIsReady(s, chunk, aggregate, others, version);
    RoundKeepsTickets(s, SnapshotUpdater, round);
    t := PublishRound(sub, s, SnapshotUpdater, round);
  }

  lemma RefreshAppend(rounds: seq<Round>, r: Round, tokens: seq<Address>, provider: (nat, seq<Address>) -> Aggregate,
                      others: nat -> Meanwhile, version: nat)
    requires RefreshRounds(rounds, tokens, provider, others, version)
    requires var i, chunks := |rounds|, Chunks(Sorted(tokens), MULTICALL_CHUNK_SIZE);
             i < |chunks| && r == RefreshRound(chunks[i], provider(i, chunks[i]), others(i), version)
    ensures RefreshRounds(rounds + [r], tokens, provider, others, version)
  {
  }

  /** Copying the token list is a check of every watched token. */
  ghost function Copied(s: State): (t: State)
    requires WellFormed(s)
    ensures WellFormed(t)
  {
    StepIsWellFormed(s, CheckWatched(s.Watched()));
    Step(s, CheckWatched(s.Watched()))
  }

  lemma CopyTickets(s: State)
    requires WellFormed(s)
    ensures var t := Copied(s);
            && t.open == s.open && t.snapshot == s.snapshot && t.sent == s.sent
            && forall token :: token in s.Watched() ==> (token, |s.watches| - 1) in t.tickets
  {
    assert s.Watched() * s.Watched() == s.Watched();
  }

  /** How many rounds there are before the first error, which closes the session. */
  function UntilError(rounds: seq<Round>): (good: nat)
    ensures good <= |rounds| && forall i :: 0 <= i < good ==> rounds[i].item.Balances?
    ensures good < |rounds| ==> rounds[good].item.RpcError?
  {
    if rounds == [] || rounds[0].item.RpcError? then 0 else 1 + UntilError(rounds[1..])
  }

  predicate Good(rounds: seq<Round>, i: nat)
    requires i <= |rounds|
  {
    forall j :: 0 <= j < i ==> rounds[j].item.Balances?
  }

  lemma GoodMore(rounds: seq<Round>, i: nat)
    requires i < |rounds| && Good(rounds, i) && !rounds[i].item.RpcError?
    ensures Good(rounds, i + 1)
  {
  }

  lemma {:induction false} UntilErrorStops(rounds: seq<Round>, i: nat)
    requires i <= |rounds| && Good(rounds, i)
    ensures UntilError(rounds) >= i
    ensures i == |rounds| || rounds[i].item.RpcError? ==> UntilError(rounds) == i
  {
    if i > 0 {
      forall j | 0 <= j < i - 1 ensures rounds[1..][j].item.Balances? {
        assert rounds[1..][j] == rounds[j + 1];
      }
      UntilErrorStops(rounds[1..], i - 1);
    }
  }

  /** The session after the queue loop has seen these rounds: published up to the first error, which is a 503. */
  ghost function AfterQueue(s: State, seen: seq<Round>): (t: State)
    requires WellFormed(s)
    ensures WellFormed(t)
  {
    var good := UntilError(seen);
    if good >= |seen| then AfterAll(s, QueueReceiver, seen)
    else AfterError(Continue(AfterAll(s, QueueReceiver, seen[..good]), seen[good].before), PROVIDER_LOST.code)
  }

  /**
   The queue loop, with the others acting before every result and between every merge and its
   broadcast. `rounds` are the results there are before the session is cancelled from outside;
   they are published up to the first error, which is terminal for the session.
   */
  method ReceiveQueueResults(sub: Subscription, s: State, rounds: seq<Round>) returns (t: State)
    requires Shows(sub, s) && OwnDiffs(s.open, QueueReceiver) == [] && AllReady(s, QueueReceiver, rounds)
    modifies sub
    ensures t == AfterQueue(s, rounds) && Shows(sub, t)
    ensures sub.cancelled == (old(sub.cancelled) || exists i :: 0 <= i < |rounds| && rounds[i].item.RpcError?)
    ensures (exists i :: 0 <= i < |rounds| && rounds[i].item.RpcError?) ==>
              sub.sent != [] && sub.sent[|sub.sent| - 1] == Error(503)
  {
    t := s;
    var i := 0;
    assert rounds[..0] == [];
    while i < |rounds|
      invariant i <= |rounds| && Good(rounds, i)
      invariant t == AfterAll(s, QueueReceiver, rounds[..i])
      invariant Shows(sub, t) && OwnDiffs(t.open, QueueReceiver) == [] && sub.cancelled == old(sub.cancelled)
    {
      ReadyAt(s, QueueReceiver, rounds, i);
      if rounds[i].item.RpcError? {
        QueueStops(s, rounds, i);
        t := CloseSession(sub, t, rounds[i].before);
        return;
      }
      GoodMore(rounds, i);
      PrefixAppend(s, rounds, i);
      t := PublishRound(sub, t, QueueReceiver, rounds[i]);
      i := i + 1;
    }
    assert rounds[..i] == rounds;
    QueueEnds(s, rounds);
  }

  lemma PrefixAppend(s: State, rounds: seq<Round>, i: nat)
    requires WellFormed(s) && i < |rounds|
    ensures AfterAll(s, QueueReceiver, rounds[..i + 1])
         == AfterRound(AfterAll(s, QueueReceiver, rounds[..i]), QueueReceiver, rounds[i])
  {
    assert rounds[..i + 1] == rounds[..i] + [rounds[i]];
    AfterAllAppend(s, QueueReceiver, rounds[..i], rounds[i]);
  }

  /** The terminal error: a 503 to every client, then the session is cancelled. */
  method CloseSession(sub: Subscription, s: State, before: seq<Event>) returns (t: State)
    requires Shows(sub, s)
    modifies sub
    ensures t == AfterError(Continue(s, before), PROVIDER_LOST.code) && Shows(sub, t) && sub.cancelled
    ensures sub.sent == Continue(s, before).sent + [Error(503)] && sub.balancesSnapshot == Continue(s, before).snapshot
  {
    var waited := OthersAct(sub, s, before);
    t := Perform(sub, waited, SendError(PROVIDER_LOST.code));
    sub.cancelled := true;
  }

  lemma QueueStops(s: State, seen: seq<Round>, i: nat)
    requires WellFormed(s) && i < |seen| && seen[i].item.RpcError? && Good(seen, i)
    ensures AfterQueue(s, seen)
         == AfterError(Continue(AfterAll(s, QueueReceiver, seen[..i]), seen[i].before), PROVIDER_LOST.code)
    ensures UntilError(seen) < |seen|
  {
    UntilErrorStops(seen, i);
  }

  lemma QueueEnds(s: State, seen: seq<Round>)
    requires WellFormed(s) && Good(seen, |seen|)
    ensures AfterQueue(s, seen) == AfterAll(s, QueueReceiver, seen) && UntilError(seen) == |seen|
  {
    UntilErrorStops(seen, |seen|);
  }

  // ----- the publishers' rounds are runs of the session -----

  /** The steps a round amounts to. */
  function RoundEvents(task: Task, r: Round): seq<Event> {
    match r.item
    case Balances(balances, block) =>
      r.before + ([MergeResult(task, balances, block, r.under)] + r.between + [Broadcast(task)])
    case RpcError => r.before + [SendError(MULTICALL_FAILED.code)]
  }

  function AllEvents(task: Task, rounds: seq<Round>): seq<Event> {
    if rounds == [] then [] else AllEvents(task, rounds[..|rounds| - 1]) + RoundEvents(task, rounds[|rounds| - 1])
  }

  lemma RoundIsRun(s: State, task: Task, r: Round)
    requires WellFormed(s)
    ensures Continue(s, RoundEvents(task, r)) == AfterRound(s, task, r)
  {
    match r.item
    case Balances(balances, block) =>
      var e := MergeResult(task, balances, block, r.under);
      ContinueConcat(s, r.before, [e] + r.between + [Broadcast(task)]);
      PublishingSteps(Continue(s, r.before), e, r.between);
    case RpcError => ContinueAppend(s, r.before, SendError(MULTICALL_FAILED.code));
  }

  /** Whatever the others do, what a publisher does is a run of the session's steps. */
  lemma {:induction false} RoundsAreRun(s: State, task: Task, rounds: seq<Round>)
    requires WellFormed(s)
    ensures Continue(s, AllEvents(task, rounds)) == AfterAll(s, task, rounds)
  {
    if rounds != [] {
      var earlier, last := rounds[..|rounds| - 1], rounds[|rounds| - 1];
      RoundsAreRun(s, task, earlier);
      ContinueConcat(s, AllEvents(task, earlier), RoundEvents(task, last));
      RoundIsRun(AfterAll(s, task, earlier), task, last);
    }
  }

  lemma RefreshIsRun(s: State, rounds: seq<Round>)
    requires WellFormed(s)
    ensures Continue(s, [CheckWatched(s.Watched())] + AllEvents(SnapshotUpdater, rounds))
         == AfterAll(Copied(s), SnapshotUpdater, rounds)
  {
    ContinueAppend(s, [], CheckWatched(s.Watched()));
    assert [] + [CheckWatched(s.Watched())] == [CheckWatched(s.Watched())];
    ContinueConcat(s, [CheckWatched(s.Watched())], AllEvents(SnapshotUpdater, rounds));
    RoundsAreRun(Copied(s), SnapshotUpdater, rounds);
  }

  function QueueEvents(rounds: seq<Round>): seq<Event> {
    var good := UntilError(rounds);
    if good >= |rounds| then AllEvents(QueueReceiver, rounds)
    else AllEvents(QueueReceiver, rounds[..good]) + rounds[good].before + [SendError(PROVIDER_LOST.code)]
  }

  lemma QueueIsRun(s: State, rounds: seq<Round>)
    requires WellFormed(s)
    ensures Continue(s, QueueEvents(rounds)) == AfterQueue(s, rounds)
  {
    var good := UntilError(rounds);
    if good >= |rounds| {
      RoundsAreRun(s, QueueReceiver, rounds);
    } else {
      var past, before := AllEvents(QueueReceiver, rounds[..good]), rounds[good].before;
      RoundsAreRun(s, QueueReceiver, rounds[..good]);
      ContinueConcat(s, past, before);
      ContinueAppend(s, past + before, SendError(PROVIDER_LOST.code));
    }
  }

  // ----- what is published -----

  /** Nobody else acted. */
  ghost predicate Undisturbed(rounds: seq<Round>) {
    forall i :: 0 <= i < |rounds| ==> rounds[i].before == [] && rounds[i].between == []
  }

  function Items(rounds: seq<Round>): (items: seq<BalancesResult>)
    ensures |items| == |rounds| && forall i :: 0 <= i < |items| ==> items[i] == rounds[i].item
  {
    seq(|rounds|, i requires 0 <= i < |rounds| => rounds[i].item)
  }

  lemma QuietRound(s: State, task: Task, r: Round)
    requires WellFormed(s) && OwnDiffs(s.open, task) == [] && Ready(s, task, r) && r.before == [] && r.between == []
    ensures var t := AfterRound(s, task, r);
            OwnDiffs(t.open, task) == []
              && Published(t.snapshot, t.sent) == PublishItem(Published(s.snapshot, s.sent), r.item)
  {
    match r.item
    case Balances(balances, block) =>
      var e := MergeResult(task, balances, block, r.under);
      ReadyToMerge(s, task, balances, block, r.under);
      MergeShows(s, e);
      OwnBroadcast(Step(s, e), task, Diff(s.snapshot, balances, block));
    case RpcError => ErrorKeepsOwn(s, task, MULTICALL_FAILED.code);
  }

  lemma PublishLast(p: Published, rounds: seq<Round>)
    requires rounds != []
    ensures PublishAll(p, Items(rounds))
         == PublishItem(PublishAll(p, Items(rounds[..|rounds| - 1])), rounds[|rounds| - 1].item)
  {
    assert Items(rounds)[..|rounds| - 1] == Items(rounds[..|rounds| - 1]);
  }

  /** A publisher left alone publishes its items one after the other. */
  lemma {:induction false} QuietRounds(s: State, task: Task, rounds: seq<Round>)
    requires WellFormed(s) && OwnDiffs(s.open, task) == [] && AllReady(s, task, rounds) && Undisturbed(rounds)
    ensures var t := AfterAll(s, task, rounds);
            && OwnDiffs(t.open, task) == []
            && Published(t.snapshot, t.sent) == PublishAll(Published(s.snapshot, s.sent), Items(rounds))
  {
    if rounds != [] {
      var earlier, last := rounds[..|rounds| - 1], rounds[|rounds| - 1];
      QuietRounds(s, task, earlier);
      QuietRound(AfterAll(s, task, earlier), task, last);
      PublishLast(Published(s.snapshot, s.sent), rounds);
    }
  }

  /** The items the chunk stream yields for a token list. */
  ghost predicate Streamed(tokens: seq<Address>, provider: (nat, seq<Address>) -> Aggregate,
                           items: seq<BalancesResult>) {
    var chunks := Chunks(Sorted(tokens), MULTICALL_CHUNK_SIZE);
    |items| == |chunks| && forall i :: 0 <= i < |items| ==> items[i] == ChunkResult(chunks[i], provider(i, chunks[i]))
  }

  lemma {:induction false} PublishFirst(p: Published, items: seq<BalancesResult>)
    requires items != []
    ensures PublishAll(p, items) == PublishAll(PublishItem(p, items[0]), items[1..])
  {
    if |items| == 1 {
      assert items[..0] == [] && items[1..] == [];
    } else {
      PublishFirst(p, items[..|items| - 1]);
      assert items[..|items| - 1][1..] == items[1..][..|items| - 2];
    }
  }

  /** Publishing honest chunks one by one merges them one by one. */
  lemma {:induction false} PublishMergesChunks(p: Published, chunks: seq<seq<Address>>, items: seq<BalancesResult>,
                                               answer: Address -> SubcallResult, block: BlockNumber)
    requires |items| == |chunks|
    requires forall i :: 0 <= i < |items| ==>
               items[i] == ChunkResult(chunks[i], Aggregated(block, Respond(answer, chunks[i])))
    ensures PublishAll(p, items).snapshot == MergeChunks(p.snapshot, chunks, answer, block)
    decreases |chunks|
  {
    if chunks != [] {
      PublishFirst(p, items);
      PublishMergesChunks(PublishItem(p, items[0]), chunks[1..], items[1..], answer, block);
    }
  }

  /** What was broadcast before does not matter to what is published. */
  lemma {:induction false} PublishShifts(snapshot: Snapshot, sent: seq<BalanceEvent>, items: seq<BalancesResult>)
    ensures var p, q := PublishAll(Published(snapshot, sent), items), PublishAll(Published(snapshot, []), items);
            p.snapshot == q.snapshot && p.events == sent + q.events
  {
    if items != [] {
      PublishShifts(snapshot, sent, items[..|items| - 1]);
    }
  }

  lemma StreamEqualsOneRead(snapshot: Snapshot, tokens: seq<Address>, provider: (nat, seq<Address>) -> Aggregate,
                            items: seq<BalancesResult>, answer: Address -> SubcallResult, block: BlockNumber)
    requires Streamed(tokens, provider, items)
    requires forall i: nat, chunk: seq<Address> :: provider(i, chunk) == Aggregated(block, Respond(answer, chunk))
    ensures PublishAll(Published(snapshot, []), items).snapshot
         == Merge(snapshot, Mapped(Sorted(tokens), Respond(answer, Sorted(tokens))), block)
  {
    var chunks := Chunks(Sorted(tokens), MULTICALL_CHUNK_SIZE);
    PublishMergesChunks(Published(snapshot, []), chunks, items, answer, block);
    ChunkedEqualsOneShot(snapshot, tokens, MULTICALL_CHUNK_SIZE, answer, block);
  }

  /**
   Chunked equals one-shot, on what is published: with an honest provider at one block and
   nobody else acting, a refresh that runs to its end leaves the snapshot that merging one
   read of the whole list would, and the events it broadcast take any client that held the
   amounts before to it.
   */
  lemma RefreshEqualsOneRead(s: State, rounds: seq<Round>, tokens: seq<Address>,
                             provider: (nat, seq<Address>) -> Aggregate, others: nat -> Meanwhile,
                             answer: Address -> SubcallResult, block: BlockNumber)
    requires WellFormed(s) && OwnDiffs(s.open, SnapshotUpdater) == [] && AllReady(Copied(s), SnapshotUpdater, rounds)
    requires RefreshRounds(rounds, tokens, provider, others, |s.watches| - 1) && Undisturbed(rounds)
    requires |rounds| == |Chunks(Sorted(tokens), MULTICALL_CHUNK_SIZE)|
    requires forall i: nat, chunk: seq<Address> :: provider(i, chunk) == Aggregated(block, Respond(answer, chunk))
    ensures var one := Merge(s.snapshot, Mapped(Sorted(tokens), Respond(answer, Sorted(tokens))), block);
            var t := AfterAll(Copied(s), SnapshotUpdater, rounds);
            && t.snapshot == one && s.sent <= t.sent
            && Amounts(s.snapshot) + Carried(t.sent[|s.sent|..]) == Amounts(one)
  {
    var items := Items(rounds);
    var q := PublishAll(Published(s.snapshot, []), items);
    CopyTickets(s);
    QuietRounds(Copied(s), SnapshotUpdater, rounds);
    PublishShifts(s.snapshot, s.sent, items);
    StreamEqualsOneRead(s.snapshot, tokens, provider, items, answer, block);
    EventsReplayTheSnapshot(s.snapshot, items);
    assert (s.sent + q.events)[|s.sent|..] == q.events;
  }

  /**
   Replay: whatever the stream yields, a client that held the amounts before and overlays
   the events broadcast meanwhile holds the amounts after.
   */
  lemma {:induction false} EventsReplayTheSnapshot(snapshot: Snapshot, items: seq<BalancesResult>)
    ensures var p := PublishAll(Published(snapshot, []), items);
            Amounts(p.snapshot) == Amounts(snapshot) + Carried(p.events)
  {
    if items == [] {
      assert Amounts(snapshot) + map[] == Amounts(snapshot);
    } else {
      var before := PublishAll(Published(snapshot, []), items[..|items| - 1]);
      EventsReplayTheSnapshot(snapshot, items[..|items| - 1]);
      PublishReplays(snapshot, before, items[|items| - 1]);
    }
  }

  lemma PublishReplays(snapshot: Snapshot, before: Published, item: BalancesResult)
    requires Amounts(before.snapshot) == Amounts(snapshot) + Carried(before.events)
    ensures var p := PublishItem(before, item); Amounts(p.snapshot) == Amounts(snapshot) + Carried(p.events)
  {
    if item.Balances? {
      var diff := Diff(before.snapshot, item.balances, item.block);
      DiffIsExact(before.snapshot, item.balances, item.block);
      CarriedOne(before.events, BalanceUpdate(diff));
      Associates(Amounts(snapshot), Carried(before.events), diff);
      Neutral(Amounts(before.snapshot));
    } else {
      CarriedOne(before.events, MULTICALL_FAILED);
      Neutral(Carried(before.events));
    }
  }

  lemma CarriedOne(events: seq<BalanceEvent>, event: BalanceEvent)
    ensures Carried(events + [event]) == Carried(events) + Payload(event)
  {
    assert (events + [event])[..|events|] == events;
  }
}
