/** The debounced refresh queue: coalescing a window of requests and picking the block to read at. */
module BalanceRefreshQueue {
  import opened Domain
  import opened S = Subscription

  const MAX_QUEUE_SIZE := 256

  /** A token whose balance is stale, with the event's block when the event had one. */
  datatype Request = Request(token: Address, block: Option<BlockNumber>)

  datatype BlockId = Latest | Number(block: BlockNumber)

  function Newer(saved: Option<BlockNumber>, current: Option<BlockNumber>): Option<BlockNumber> {
    if saved.None? || current.None? then None else Some(Max(saved.value, current.value))
  }

  /** One request folded into the accumulator. */
  function Fold(acc: map<Address, Option<BlockNumber>>, request: Request): map<Address, Option<BlockNumber>> {
    acc[request.token := if request.token in acc then Newer(acc[request.token], request.block) else request.block]
  }

  function CoalesceByToken(batch: seq<Request>): map<Address, Option<BlockNumber>> {
    if batch == [] then map[] else Fold(CoalesceByToken(batch[..|batch| - 1]), batch[|batch| - 1])
  }

  /** The value a set of requests for one token stands for: unpinned if any is, else their highest block. */
  ghost predicate StandsFor(batch: seq<Request>, token: Address, block: Option<BlockNumber>) {
    match block
    case None => Request(token, None) in batch
    case Some(n) =>
      && Request(token, Some(n)) in batch
      && forall request :: request in batch && request.token == token ==>
        request.block.Some? && request.block.value <= n
  }

  ghost predicate Mentions(batch: seq<Request>, token: Address) {
    exists request :: request in batch && request.token == token
  }

  lemma {:induction false} CoalesceStandsFor(batch: seq<Request>, token: Address)
    ensures token in CoalesceByToken(batch) <==> Mentions(batch, token)
    ensures token in CoalesceByToken(batch) ==> StandsFor(batch, token, CoalesceByToken(batch)[token])
  {
    if batch != [] {
      var earlier, last := batch[..|batch| - 1], batch[|batch| - 1];
      CoalesceStandsFor(earlier, token);
      assert forall request :: request in batch <==> request in earlier || request == last;
    }
  }

  /** Coalescing depends on which requests the window holds, not on their order or repetition. */
  lemma CoalesceIgnoresOrder(one: seq<Request>, other: seq<Request>)
    requires forall request :: request in one <==> request in other
    ensures CoalesceByToken(one) == CoalesceByToken(other)
  {
    var a, b := CoalesceByToken(one), CoalesceByToken(other);
    forall token: nat
      ensures token in a <==> token in b
      ensures token in a && token in b ==> a[token] == b[token]
    {
      CoalesceStandsFor(one, token);
      CoalesceStandsFor(other, token);
    }
  }

  /** Latest if some token is unpinned or no block is above zero; otherwise the highest block of the batch. */
  ghost predicate Resolves(batch: map<Address, Option<BlockNumber>>, id: BlockId) {
    match id
    case Latest =>
      || (exists token :: token in batch && batch[token].None?)
      || forall token :: token in batch ==> batch[token] == Some(0)
    case Number(n) =>
      && n > 0
      && (forall token :: token in batch ==> batch[token].Some? && batch[token].value <= n)
      && exists token :: token in batch && batch[token] == Some(n)
  }

  lemma ResolvesUniquely(batch: map<Address, Option<BlockNumber>>, one: BlockId, other: BlockId)
    requires Resolves(batch, one) && Resolves(batch, other)
    ensures one == other
  {
  }

  /** The fold over the batch's values, in whatever order the map yields them. */
  method ResolveBlockId(batch: map<Address, Option<BlockNumber>>) returns (id: BlockId)
    ensures Resolves(batch, id)
    ensures id == Latest <==>
              (exists token :: token in batch && batch[token].None?)
              || forall token :: token in batch ==> batch[token] == Some(0)
    ensures id.Number? ==>
              && (forall token :: token in batch ==> batch[token].Some? && batch[token].value <= id.block)
              && exists token :: token in batch && batch[token] == Some(id.block)
  {
    var maxBlock := 0;
    var rest := batch.Keys;
    while rest != {}
      invariant rest <= batch.Keys
      invariant forall token :: token in batch && token !in rest ==>
        batch[token].Some? && batch[token].value <= maxBlock
      invariant maxBlock > 0 ==> exists token :: token in batch && batch[token] == Some(maxBlock)
      decreases |rest|
    {
      var token :| token in rest;
      if batch[token].None? {
        return Latest;
      }
      maxBlock := Max(maxBlock, batch[token].value);
      rest := rest - {token};
    }
    id := if maxBlock > 0 then Number(maxBlock) else Latest;
  }

  /**
   A node that is not behind: it reports no block older than the one asked for, and latest is
   late enough for the batch.
   */
  ghost predicate Honest(batch: seq<Request>, id: BlockId, readAt: BlockNumber) {
    match id
    case Number(n) => n <= readAt
    case Latest => forall request :: request in batch && request.block.Some? ==> request.block.value <= readAt
  }

  /** Whatever the window held, an honest answer is at least as recent as every event in it. */
  lemma ChosenBlockIsFresh(batch: seq<Request>, id: BlockId, readAt: BlockNumber, request: Request)
    requires Resolves(CoalesceByToken(batch), id) && Honest(batch, id, readAt)
    requires request in batch && request.block.Some?
    ensures request.block.value <= readAt
  {
    CoalesceStandsFor(batch, request.token);
    assert Mentions(batch, request.token);
  }

  /** After merging it, every answered token is stored at a block no older than any event coalesced for it. */
  lemma MergeIsFresh(snapshot: Snapshot, batch: seq<Request>, id: BlockId, balances: map<Address, nat>,
                     readAt: BlockNumber, request: Request)
    requires Resolves(CoalesceByToken(batch), id) && Honest(batch, id, readAt)
    requires request in batch && request.block.Some? && request.token in balances
    ensures var merged := Merge(snapshot, balances, readAt);
            request.token in merged && request.block.value <= merged[request.token].block
  {
    ChosenBlockIsFresh(batch, id, readAt, request);
  }
}
