/** Balance reads: chunking, the positional mapping of subcall results, and its equivalence with one big read. */
module RpcClient {
  import opened Domain
  import opened S = Subscription

  const MULTICALL_CHUNK_SIZE := 500

  datatype SubcallResult = Ok(balance: nat) | Failure

  /** What a multicall returns: the block it ran at and one result per call, or nothing after all retries. */
  datatype Aggregate = Aggregated(block: BlockNumber, results: seq<SubcallResult>) | Exhausted

  datatype BalancesResult = Balances(balances: map<Address, nat>, block: BlockNumber) | RpcError

  /** The i-th token gets the i-th result, if there is one and it succeeded. */
  function Mapped(tokens: seq<Address>, results: seq<SubcallResult>): map<Address, nat> {
    if tokens == [] then map[]
    else
      var i := |tokens| - 1;
      var earlier := Mapped(tokens[..i], results);
      if i < |results| && results[i].Ok? then earlier[tokens[i] := results[i].balance] else earlier
  }

  /** Missing and failed results, as counted. */
  function FailedIn(tokens: seq<Address>, results: seq<SubcallResult>): nat {
    if tokens == [] then 0
    else
      var i := |tokens| - 1;
      FailedIn(tokens[..i], results) + if i < |results| && results[i].Ok? then 0 else 1
  }

  method MapBalanceResult(tokens: seq<Address>, results: seq<SubcallResult>)
    returns (balances: map<Address, nat>, failed: nat)
    ensures balances == Mapped(tokens, results) && failed == FailedIn(tokens, results)
    ensures failed == |set i: nat | i < |tokens| && !(i < |results| && results[i].Ok?)|
    ensures Distinct(tokens) ==> forall i :: 0 <= i < |tokens| ==>
              && (tokens[i] in balances <==> i < |results| && results[i].Ok?)
              && (tokens[i] in balances ==> balances[tokens[i]] == results[i].balance)
    ensures forall token :: token in balances ==> token in tokens
  {
    balances, failed := map[], 0;
    for i := 0 to |tokens|
      invariant balances == Mapped(tokens[..i], results) && failed == FailedIn(tokens[..i], results)
    {
      assert tokens[..i + 1][..i] == tokens[..i];
      if i >= |results| {
        failed := failed + 1;
      } else if results[i].Ok? {
        balances := balances[tokens[i] := results[i].balance];
      } else {
        failed := failed + 1;
      }
    }
    assert tokens[..|tokens|] == tokens;
    FailedAreCounted(tokens, results);
    assert Failures(tokens, results) == set i: nat | i < |tokens| && !(i < |results| && results[i].Ok?);
    if Distinct(tokens) {
      forall i | 0 <= i < |tokens|
        ensures tokens[i] in balances <==> i < |results| && results[i].Ok?
        ensures tokens[i] in balances ==> balances[tokens[i]] == results[i].balance
      {
        DeliveredExactly(tokens, results, i);
      }
    }
    forall token | token in balances ensures token in tokens {
      OwnSubcallOnly(tokens, results, token);
    }
  }

  /** For distinct tokens, exactly those whose own subcall succeeded are delivered, each with its subcall's balance. */
  lemma {:induction false} DeliveredExactly(tokens: seq<Address>, results: seq<SubcallResult>, i: nat)
    requires Distinct(tokens) && i < |tokens|
    ensures var delivered := Mapped(tokens, results);
            && (tokens[i] in delivered <==> i < |results| && results[i].Ok?)
            && (tokens[i] in delivered ==> delivered[tokens[i]] == results[i].balance)
  {
    if tokens[i] in Mapped(tokens, results) {
      OwnSubcallOnly(tokens, results, tokens[i]);
    }
    if i < |results| && results[i].Ok? {
      var last := |tokens| - 1;
      if i < last {
        DeliveredExactly(tokens[..last], results, i);
      }
    }
  }

  /** The positions without a successful subcall. */
  function Failures(tokens: seq<Address>, results: seq<SubcallResult>): set<nat> {
    set i: nat | i < |tokens| && !(i < |results| && results[i].Ok?)
  }

  lemma {:induction false} FailedAreCounted(tokens: seq<Address>, results: seq<SubcallResult>)
    ensures FailedIn(tokens, results) == |Failures(tokens, results)|
  {
    if tokens != [] {
      var last := |tokens| - 1;
      FailedAreCounted(tokens[..last], results);
      var earlier := Failures(tokens[..last], results);
      assert Failures(tokens, results) == if last < |results| && results[last].Ok? then earlier else earlier + {last};
    }
  }

  ghost predicate Distinct(tokens: seq<Address>) {
    forall i, j :: 0 <= i < j < |tokens| ==> tokens[i] != tokens[j]
  }

  /** A token only ever gets the value of a subcall that was its own. */
  lemma {:induction false} OwnSubcallOnly(tokens: seq<Address>, results: seq<SubcallResult>, token: Address)
    requires token in Mapped(tokens, results)
    ensures exists i ::
      0 <= i < |tokens| && i < |results| && tokens[i] == token && results[i] == Ok(Mapped(tokens, results)[token])
  {
    var last := |tokens| - 1;
    if !(tokens[last] == token && last < |results| && results[last].Ok?) {
      OwnSubcallOnly(tokens[..last], results, token);
      var i :| 0 <= i < |tokens[..last]| && i < |results| && tokens[..last][i] == token
               && results[i] == Ok(Mapped(tokens[..last], results)[token]);
      assert tokens[i] == token;
    }
  }

  /** Every distinct token is either delivered or counted as failed. */
  lemma {:induction false} DeliveredPlusFailed(tokens: seq<Address>, results: seq<SubcallResult>)
    requires Distinct(tokens)
    ensures |Mapped(tokens, results)| + FailedIn(tokens, results) == |tokens|
  {
    if tokens != [] {
      var last := |tokens| - 1;
      DeliveredPlusFailed(tokens[..last], results);
      var earlier := Mapped(tokens[..last], results);
      if tokens[last] in earlier {
        OwnSubcallOnly(tokens[..last], results, tokens[last]);
      }
    }
  }

  // ----- sorting and chunking -----

  function Insert(token: Address, sorted: seq<Address>): seq<Address> {
    if sorted == [] || token <= sorted[0] then [token] + sorted else [sorted[0]] + Insert(token, sorted[1..])
  }

  /** Ascending by address, keeping every token as often as it was given. */
  function Sorted(tokens: seq<Address>): seq<Address> {
    if tokens == [] then [] else Insert(tokens[0], Sorted(tokens[1..]))
  }

  ghost predicate Ascending(tokens: seq<Address>) {
    forall i, j :: 0 <= i < j < |tokens| ==> tokens[i] <= tokens[j]
  }

  lemma {:induction false} InsertKeeps(token: Address, sorted: seq<Address>)
    ensures multiset(Insert(token, sorted)) == multiset(sorted) + multiset{token}
  {
    if sorted != [] && token > sorted[0] {
      InsertKeeps(token, sorted[1..]);
      assert sorted == [sorted[0]] + sorted[1..];
    }
  }

  lemma {:induction false} InsertSorts(token: Address, sorted: seq<Address>)
    requires Ascending(sorted)
    ensures Ascending(Insert(token, sorted))
  {
    if sorted != [] && token > sorted[0] {
      var rest := Insert(token, sorted[1..]);
      InsertSorts(token, sorted[1..]);
      InsertKeeps(token, sorted[1..]);
      forall i | 0 <= i < |rest| ensures sorted[0] <= rest[i] {
        assert rest[i] in multiset(sorted[1..]) + multiset{token};
      }
    }
  }

  lemma {:induction false} SortedSorts(tokens: seq<Address>)
    ensures Ascending(Sorted(tokens)) && multiset(Sorted(tokens)) == multiset(tokens)
  {
    if tokens != [] {
      SortedSorts(tokens[1..]);
      InsertSorts(tokens[0], Sorted(tokens[1..]));
      InsertKeeps(tokens[0], Sorted(tokens[1..]));
      assert tokens == [tokens[0]] + tokens[1..];
    }
  }

  function Chunks(tokens: seq<Address>, size: nat): seq<seq<Address>>
    requires size >= 1
  {
    if tokens == [] then []
    else [tokens[..Min(size, |tokens|)]] + Chunks(tokens[Min(size, |tokens|)..], size)
  }

  function Flatten(chunks: seq<seq<Address>>): seq<Address> {
    if chunks == [] then [] else chunks[0] + Flatten(chunks[1..])
  }

  /** The chunks are the list in order, none empty or over-long, and all but the last full. */
  lemma {:induction false} ChunksSplit(tokens: seq<Address>, size: nat)
    requires size >= 1
    ensures var chunks := Chunks(tokens, size);
            && Flatten(chunks) == tokens
            && (forall i :: 0 <= i < |chunks| ==> 1 <= |chunks[i]| <= size)
            && (forall i :: 0 <= i < |chunks| - 1 ==> |chunks[i]| == size)
    decreases |tokens|
  {
    if tokens != [] {
      var n := Min(size, |tokens|);
      ChunksSplit(tokens[n..], size);
      assert Chunks(tokens, size) == [tokens[..n]] + Chunks(tokens[n..], size);
      assert tokens == tokens[..n] + tokens[n..];
    }
  }

  /** And so they are as few as possible. */
  lemma {:induction false} ChunksAreFewest(tokens: seq<Address>, size: nat)
    requires size >= 1 && tokens != []
    ensures var n := |Chunks(tokens, size)|; (n - 1) * size < |tokens| <= n * size
    decreases |tokens|
  {
    var n := Min(size, |tokens|);
    var k := |Chunks(tokens[n..], size)|;
    if n < |tokens| {
      ChunksAreFewest(tokens[n..], size);
      assert (k + 1) * size == k * size + size && (k - 1) * size == k * size - size;
    } else {
      assert k == 0;
    }
  }

  /** One chunk's multicall, mapped. */
  function ChunkResult(chunk: seq<Address>, aggregate: Aggregate): BalancesResult {
    match aggregate
    case Aggregated(block, results) => Balances(Mapped(chunk, results), block)
    case Exhausted => RpcError
  }

  /** What the provider answers to each chunk's call, in order. */
  function Aggregates(provider: (nat, seq<Address>) -> Aggregate, chunks: seq<seq<Address>>): seq<Aggregate> {
    seq(|chunks|, i requires 0 <= i < |chunks| => provider(i, chunks[i]))
  }

  /** What becomes of tokens: delivered, counted as failed subcalls, or without answer in an exhausted chunk. */
  datatype Tally = Tally(delivered: nat, failed: nat, unanswered: nat) {
    function Plus(other: Tally): Tally {
      Tally(delivered + other.delivered, failed + other.failed, unanswered + other.unanswered)
    }
  }

  function TallyOf(chunk: seq<Address>, aggregate: Aggregate): Tally {
    match aggregate
    case Aggregated(_, results) => Tally(|Mapped(chunk, results)|, FailedIn(chunk, results), 0)
    case Exhausted => Tally(0, 0, |chunk|)
  }

  function TallyAll(chunks: seq<seq<Address>>, aggregates: seq<Aggregate>): Tally
    requires |chunks| == |aggregates|
  {
    if chunks == [] then Tally(0, 0, 0)
    else TallyOf(chunks[0], aggregates[0]).Plus(TallyAll(chunks[1..], aggregates[1..]))
  }

  /** One item of the chunk stream, with its failed subcalls; an exhausted chunk is an error and counts none. */
  method FetchChunk(chunk: seq<Address>, aggregate: Aggregate) returns (item: BalancesResult, failed: nat)
    ensures item == ChunkResult(chunk, aggregate) && failed == TallyOf(chunk, aggregate).failed
    ensures aggregate.Exhausted? ==> item == RpcError && failed == 0
    ensures aggregate.Aggregated? ==>
              && item.Balances? && item.block == aggregate.block
              && failed == |set i: nat | i < |chunk| && !(i < |aggregate.results| && aggregate.results[i].Ok?)|
              && (forall token :: token in item.balances ==> token in chunk)
              && (Distinct(chunk) ==> forall i :: 0 <= i < |chunk| ==>
                    && (chunk[i] in item.balances <==> i < |aggregate.results| && aggregate.results[i].Ok?)
                    && (chunk[i] in item.balances ==> item.balances[chunk[i]] == aggregate.results[i].balance))
  {
    if aggregate.Exhausted? {
      return RpcError, 0;
    }
    var balances, missing := MapBalanceResult(chunk, aggregate.results);
    item, failed := Balances(balances, aggregate.block), missing;
  }

  /**
   The chunk stream, driven to its end, with the counter of failed subcalls. The provider
   sees the calls in order and may answer each as it likes; a failed chunk leaves the others
   alone.
   */
  method FetchBalancesByChunks(tokens: seq<Address>, size: nat, provider: (nat, seq<Address>) -> Aggregate)
    returns (calls: seq<seq<Address>>, items: seq<BalancesResult>, failed: nat)
    requires size >= 1
    ensures multiset(Flatten(calls)) == multiset(tokens) && Ascending(Flatten(calls))
    ensures forall i :: 0 <= i < |calls| ==> 1 <= |calls[i]| <= size
    ensures forall i :: 0 <= i < |calls| - 1 ==> |calls[i]| == size
    ensures |items| == |calls| && forall i :: 0 <= i < |items| ==>
      items[i] == ChunkResult(calls[i], provider(i, calls[i]))
    ensures failed == TallyAll(calls, Aggregates(provider, calls)).failed
    ensures calls == Chunks(Sorted(tokens), size)
  {
    var chunks := Chunks(Sorted(tokens), size);
    ghost var aggregates := Aggregates(provider, chunks);
    calls, items, failed := [], [], 0;
    for i := 0 to |chunks|
      invariant calls == chunks[..i] && |items| == i
      invariant forall j :: 0 <= j < i ==> items[j] == ChunkResult(chunks[j], provider(j, chunks[j]))
      invariant failed + TallyAll(chunks[i..], aggregates[i..]).failed == TallyAll(chunks, aggregates).failed
    {
      var item, missing := FetchChunk(chunks[i], provider(i, chunks[i]));
      TallyFrom(chunks, aggregates, i);
      calls := calls + [chunks[i]];
      items := items + [item];
      failed := failed + missing;
    }
    assert calls == chunks;
    CallsSplit(tokens, size);
  }

  lemma TallyFrom(chunks: seq<seq<Address>>, aggregates: seq<Aggregate>, i: nat)
    requires i < |chunks| == |aggregates|
    ensures TallyAll(chunks[i..], aggregates[i..]).failed
         == TallyOf(chunks[i], aggregates[i]).failed + TallyAll(chunks[i + 1..], aggregates[i + 1..]).failed
  {
    assert chunks[i..][1..] == chunks[i + 1..] && aggregates[i..][1..] == aggregates[i + 1..];
  }

  lemma CallsSplit(tokens: seq<Address>, size: nat)
    requires size >= 1
    ensures var calls := Chunks(Sorted(tokens), size);
            && multiset(Flatten(calls)) == multiset(tokens) && Ascending(Flatten(calls))
            && (forall i :: 0 <= i < |calls| ==> 1 <= |calls[i]| <= size)
            && (forall i :: 0 <= i < |calls| - 1 ==> |calls[i]| == size)
  {
    SortedSorts(tokens);
    ChunksSplit(Sorted(tokens), size);
  }

  lemma {:induction false} ChunksTally(tokens: seq<Address>, size: nat, aggregates: seq<Aggregate>)
    requires size >= 1 && Distinct(tokens) && |aggregates| == |Chunks(tokens, size)|
    ensures var tally := TallyAll(Chunks(tokens, size), aggregates);
            tally.delivered + tally.failed + tally.unanswered == |tokens|
    decreases |tokens|
  {
    if tokens != [] {
      var n := Min(size, |tokens|);
      assert Chunks(tokens, size)[1..] == Chunks(tokens[n..], size);
      if aggregates[0].Aggregated? {
        DeliveredPlusFailed(tokens[..n], aggregates[0].results);
      }
      ChunksTally(tokens[n..], size, aggregates[1..]);
    }
  }

  lemma {:induction false} DistinctOnce(tokens: seq<Address>)
    requires Distinct(tokens)
    ensures forall token :: multiset(tokens)[token] <= 1
  {
    if tokens != [] {
      var first, rest := tokens[0], tokens[1..];
      DistinctOnce(rest);
      assert tokens == [first] + rest;
      assert multiset(tokens) == multiset{first} + multiset(rest);
      assert first !in rest;
    }
  }

  lemma {:induction false} OnceDistinct(tokens: seq<Address>)
    requires forall token :: multiset(tokens)[token] <= 1
    ensures Distinct(tokens)
  {
    if tokens != [] {
      var first, rest := tokens[0], tokens[1..];
      assert tokens == [first] + rest;
      assert multiset(tokens) == multiset{first} + multiset(rest);
      forall token ensures multiset(rest)[token] <= 1 {
        assert multiset(tokens)[token] <= 1;
      }
      OnceDistinct(rest);
      assert multiset(tokens)[first] <= 1;
      assert first !in multiset(rest) && first !in rest;
    }
  }

  /**
   Over the whole stream, whatever is answered: every distinct token is delivered, counted as
   failed, or in an exhausted chunk.
   */
  lemma ChunksAccount(tokens: seq<Address>, size: nat, provider: (nat, seq<Address>) -> Aggregate)
    requires size >= 1 && Distinct(tokens)
    ensures var chunks := Chunks(Sorted(tokens), size);
            var tally := TallyAll(chunks, Aggregates(provider, chunks));
            tally.delivered + tally.failed + tally.unanswered == |tokens|
  {
    SortedSorts(tokens);
    DistinctOnce(tokens);
    OnceDistinct(Sorted(tokens));
    ChunksTally(Sorted(tokens), size, Aggregates(provider, Chunks(Sorted(tokens), size)));
    assert |multiset(Sorted(tokens))| == |multiset(tokens)|;
  }

  // ----- chunked equals one-shot -----

  /** An honest provider answers each token the same, wherever it stands in the batch. */
  function Respond(answer: Address -> SubcallResult, tokens: seq<Address>): seq<SubcallResult> {
    seq(|tokens|, i requires 0 <= i < |tokens| => answer(tokens[i]))
  }

  function Answers(answer: Address -> SubcallResult, tokens: seq<Address>): map<Address, nat> {
    map token | token in tokens && answer(token).Ok? :: answer(token).balance
  }

  lemma {:induction false} MappedIsAnswers(answer: Address -> SubcallResult, tokens: seq<Address>,
                                           results: seq<SubcallResult>)
    requires |results| >= |tokens| && forall i :: 0 <= i < |tokens| ==> results[i] == answer(tokens[i])
    ensures Mapped(tokens, results) == Answers(answer, tokens)
  {
    if tokens != [] {
      var last := |tokens| - 1;
      MappedIsAnswers(answer, tokens[..last], results);
      assert forall token :: token in tokens <==> token in tokens[..last] || token == tokens[last];
    }
  }

  /** The chunks' results merged one after the other, all read at one block. */
  function MergeChunks(snapshot: Snapshot, chunks: seq<seq<Address>>, answer: Address -> SubcallResult,
                       block: BlockNumber): Snapshot
    decreases |chunks|
  {
    if chunks == [] then snapshot
    else MergeChunks(Merge(snapshot, Mapped(chunks[0], Respond(answer, chunks[0])), block), chunks[1..], answer, block)
  }

  lemma MergeTwice(snapshot: Snapshot, answer: Address -> SubcallResult, first: seq<Address>, rest: seq<Address>,
                   block: BlockNumber)
    ensures Merge(Merge(snapshot, Answers(answer, first), block), Answers(answer, rest), block)
         == Merge(snapshot, Answers(answer, first + rest), block)
  {
    MergeAgreeing(snapshot, Answers(answer, first), Answers(answer, rest), block);
    assert Answers(answer, first + rest) == Answers(answer, first) + Answers(answer, rest);
  }

  /** Two results read at one block, agreeing where they overlap, merge like their union. */
  lemma MergeAgreeing(snapshot: Snapshot, a: map<Address, nat>, b: map<Address, nat>, block: BlockNumber)
    requires forall token :: token in a && token in b ==> a[token] == b[token]
    ensures Merge(Merge(snapshot, a, block), b, block) == Merge(snapshot, a + b, block)
  {
    var twice, whole := Merge(Merge(snapshot, a, block), b, block), Merge(snapshot, a + b, block);
    assert twice.Keys == whole.Keys;
  }

  lemma MergeNothing(snapshot: Snapshot, answer: Address -> SubcallResult, block: BlockNumber)
    ensures Merge(snapshot, Answers(answer, []), block) == snapshot
  {
    assert Answers(answer, []) == map[];
  }

  lemma {:induction false} MergeChunksIsOneMerge(snapshot: Snapshot, tokens: seq<Address>, size: nat,
                                                 answer: Address -> SubcallResult, block: BlockNumber)
    requires size >= 1
    ensures MergeChunks(snapshot, Chunks(tokens, size), answer, block)
      == Merge(snapshot, Answers(answer, tokens), block)
    decreases |tokens|
  {
    if tokens == [] {
      MergeNothing(snapshot, answer, block);
    } else {
      var n := Min(size, |tokens|);
      var first, rest := tokens[..n], tokens[n..];
      MergeChunksIsOneMerge(Merge(snapshot, Answers(answer, first), block), rest, size, answer, block);
      MergeFirstChunk(snapshot, tokens, size, answer, block);
      MergeTwice(snapshot, answer, first, rest, block);
      assert first + rest == tokens;
    }
  }

  lemma MergeFirstChunk(snapshot: Snapshot, tokens: seq<Address>, size: nat, answer: Address -> SubcallResult,
                        block: BlockNumber)
    requires size >= 1 && tokens != []
    ensures var n := Min(size, |tokens|);
            MergeChunks(snapshot, Chunks(tokens, size), answer, block)
              == MergeChunks(Merge(snapshot, Answers(answer, tokens[..n]), block), Chunks(tokens[n..], size),
                             answer, block)
  {
    var n := Min(size, |tokens|);
    var chunks := Chunks(tokens, size);
    assert chunks[0] == tokens[..n] && chunks[1..] == Chunks(tokens[n..], size);
    MappedIsAnswers(answer, tokens[..n], Respond(answer, tokens[..n]));
  }

  /**
   With an honest provider at one block, merging the sorted chunks in turn gives exactly the
   snapshot of merging the single-batch read - for every token list, duplicates included,
   and every chunk size.
   */
  lemma ChunkedEqualsOneShot(snapshot: Snapshot, tokens: seq<Address>, size: nat, answer: Address -> SubcallResult,
                             block: BlockNumber)
    requires size >= 1
    ensures MergeChunks(snapshot, Chunks(Sorted(tokens), size), answer, block)
         == Merge(snapshot, Mapped(Sorted(tokens), Respond(answer, Sorted(tokens))), block)
         == Merge(snapshot, Answers(answer, tokens), block)
  {
    SortedSorts(tokens);
    MergeChunksIsOneMerge(snapshot, Sorted(tokens), size, answer, block);
    MappedIsAnswers(answer, Sorted(tokens), Respond(answer, Sorted(tokens)));
    forall token ensures token in tokens <==> token in Sorted(tokens) {
      assert token in tokens <==> token in multiset(tokens);
      assert token in Sorted(tokens) <==> token in multiset(Sorted(tokens));
    }
    assert Answers(answer, tokens) == Answers(answer, Sorted(tokens));
  }
}
