/**
 Per-session shared state: the watched set, the block-guarded balance snapshot, and the
 broadcast of diffs.
 */
module Subscription {
  import opened Domain

  datatype Balance = Balance(amount: nat, block: BlockNumber)

  type Snapshot = map<Address, Balance>

  /** What a client can see of a snapshot. */
  function Amounts(snapshot: Snapshot): map<Address, nat> {
    map token | token in snapshot :: snapshot[token].amount
  }

  /** A reading at `block` replaces an entry only if the entry is older. */
  predicate Accepts(snapshot: Snapshot, token: Address, block: BlockNumber) {
    token !in snapshot || snapshot[token].block < block
  }

  function Merge(snapshot: Snapshot, balances: map<Address, nat>, block: BlockNumber): Snapshot {
    map token | token in snapshot.Keys + balances.Keys ::
      if token in balances && Accepts(snapshot, token, block) then Balance(balances[token], block) else snapshot[token]
  }

  /** The visible changes a merge makes. */
  function Diff(snapshot: Snapshot, balances: map<Address, nat>, block: BlockNumber): map<Address, nat> {
    map token | token in balances && Accepts(snapshot, token, block)
                && (token in snapshot ==> snapshot[token].amount != balances[token]) :: balances[token]
  }

  function Evict(snapshot: Snapshot, tokens: set<Address>): Snapshot {
    map token | token in snapshot && token in tokens :: snapshot[token]
  }

  /**
   Overlaying the diff on the old amounts gives the new amounts, and the diff names exactly
   the tokens whose visible amount changed or appeared. It is the only such map.
   */
  lemma DiffIsExact(snapshot: Snapshot, balances: map<Address, nat>, block: BlockNumber)
    ensures var before, after := Amounts(snapshot), Amounts(Merge(snapshot, balances, block));
            var diff := Diff(snapshot, balances, block);
            && before + diff == after
            && (forall token :: token in diff <==>
              token in after && (token !in before || before[token] != after[token]))
            && (forall other: map<Address, nat> ::
                  before + other == after
                  && (forall token :: token in other ==> token !in before || before[token] != after[token])
                  ==> other == diff)
  {
    var before, after := Amounts(snapshot), Amounts(Merge(snapshot, balances, block));
    var diff := Diff(snapshot, balances, block);
    assert before + diff == after;
    forall other: map<Address, nat> |
      before + other == after && (forall token :: token in other ==> token !in before || before[token] != after[token])
      ensures other == diff
    {
      forall token ensures token in other <==> token in diff {
        if token in diff {
          assert token in before + other;
        }
        if token in other {
          assert token in after;
        }
      }
      forall token | token in diff ensures other[token] == diff[token] {
        assert (before + other)[token] == other[token];
      }
    }
  }

  /** One more token of the batch, as the merge loop handles it. */
  lemma MergeOneMore(snapshot: Snapshot, done: map<Address, nat>, token: Address, amount: nat, block: BlockNumber)
    requires token !in done
    ensures var merged := Merge(snapshot, done, block);
            && (token in merged <==> token in snapshot) && (token in snapshot ==> merged[token] == snapshot[token])
            && Merge(snapshot, done[token := amount], block)
               == (if Accepts(snapshot, token, block) then merged[token := Balance(amount, block)] else merged)
            && Diff(snapshot, done[token := amount], block)
               == (if Accepts(snapshot, token, block) && (token in snapshot ==> snapshot[token].amount != amount)
                   then Diff(snapshot, done, block)[token := amount] else Diff(snapshot, done, block))
  {
  }

  // ----- convergence -----

  /** One multicall result: some tokens answered, all read at one block. */
  datatype Read = Read(tokens: set<Address>, block: BlockNumber)

  /** Without reorgs an amount is a function of token and block. */
  type Readings = (Address, BlockNumber) -> nat

  function Values(readings: Readings, read: Read): map<Address, nat> {
    map token | token in read.tokens :: readings(token, read.block)
  }

  /** Balances to merge and the block they were read at. */
  datatype Batch = Batch(balances: map<Address, nat>, block: BlockNumber)

  function MergeBatches(snapshot: Snapshot, batches: seq<Batch>): Snapshot {
    if batches == [] then snapshot
    else
      var last := batches[|batches| - 1];
      Merge(MergeBatches(snapshot, batches[..|batches| - 1]), last.balances, last.block)
  }

  function Batches(readings: Readings, results: seq<Read>): seq<Batch> {
    seq(|results|, i requires 0 <= i < |results| => Batch(Values(readings, results[i]), results[i].block))
  }

  function MergeAll(readings: Readings, snapshot: Snapshot, results: seq<Read>): Snapshot {
    MergeBatches(snapshot, Batches(readings, results))
  }

  lemma MergeLast(readings: Readings, snapshot: Snapshot, earlier: seq<Read>, last: Read)
    ensures MergeAll(readings, snapshot, earlier + [last])
         == Merge(MergeAll(readings, snapshot, earlier), Values(readings, last), last.block)
  {
    var all := Batches(readings, earlier + [last]);
    assert all[..|earlier|] == Batches(readings, earlier);
  }

  /** Some read answered the token at the block. */
  ghost predicate Observed(results: seq<Read>, token: Address, block: BlockNumber) {
    exists i :: 0 <= i < |results| && token in results[i].tokens && results[i].block == block
  }

  ghost predicate Newest(results: seq<Read>, token: Address, block: BlockNumber) {
    Observed(results, token, block) && forall other: nat :: Observed(results, token, other) ==> other <= block
  }

  ghost predicate EverObserved(results: seq<Read>, token: Address) {
    exists block: nat :: Observed(results, token, block)
  }

  lemma ObservedAppend(results: seq<Read>, last: Read, token: Address, block: BlockNumber)
    ensures Observed(results + [last], token, block)
       <==> Observed(results, token, block) || (token in last.tokens && last.block == block)
  {
    var all := results + [last];
    if Observed(results, token, block) {
      var i :| 0 <= i < |results| && token in results[i].tokens && results[i].block == block;
      assert all[i] == results[i];
    }
    if token in last.tokens && last.block == block {
      assert all[|results|] == last;
    }
  }

  /** Merging leaves each token at its reading from the highest block among the results and the stored entry. */
  lemma {:induction false} MergeAllSettles(readings: Readings, snapshot: Snapshot, results: seq<Read>, token: Address)
    ensures var merged := MergeAll(readings, snapshot, results);
            && (token in merged <==> token in snapshot || EverObserved(results, token))
            && (token in merged ==>
                  if EverObserved(results, token)
                     && (token !in snapshot || snapshot[token].block < merged[token].block)
                  then Newest(results, token, merged[token].block)
                       && merged[token] == Balance(readings(token, merged[token].block), merged[token].block)
                  else token in snapshot && merged[token] == snapshot[token]
                       && forall block: nat :: Observed(results, token, block) ==> block <= snapshot[token].block)
  {
    if results != [] {
      var earlier, last := results[..|results| - 1], results[|results| - 1];
      assert results == earlier + [last];
      MergeLast(readings, snapshot, earlier, last);
      MergeAllSettles(readings, snapshot, earlier, token);
      forall block: nat ensures Observed(results, token, block)
                      <==> Observed(earlier, token, block) || (token in last.tokens && last.block == block)
      {
        ObservedAppend(earlier, last, token, block);
      }
      if token in last.tokens {
        assert Observed(results, token, last.block);
      }
      if EverObserved(earlier, token) {
        var block: nat :| Observed(earlier, token, block);
        assert Observed(results, token, block);
      }
    }
  }

  /**
   Two sequences of results with the same observations converge to the same snapshot, from
   any snapshot: order, repetition and the split into chunks do not matter.
   */
  lemma MergesConverge(readings: Readings, snapshot: Snapshot, one: seq<Read>, other: seq<Read>)
    requires forall token: nat, block: nat :: Observed(one, token, block) <==> Observed(other, token, block)
    ensures MergeAll(readings, snapshot, one) == MergeAll(readings, snapshot, other)
  {
    var a, b := MergeAll(readings, snapshot, one), MergeAll(readings, snapshot, other);
    forall token: nat
      ensures token in a <==> token in b
      ensures token in a && token in b ==> a[token] == b[token]
    {
      MergeAllSettles(readings, snapshot, one, token);
      MergeAllSettles(readings, snapshot, other, token);
      if EverObserved(one, token) {
        var block: nat :| Observed(one, token, block);
        assert Observed(other, token, block);
      }
      if EverObserved(other, token) {
        var block: nat :| Observed(other, token, block);
        assert Observed(one, token, block);
      }
    }
  }

  /** No merge, of whatever balances, ever loses an entry or takes it back to an older block. */
  lemma {:induction false} BlocksNeverDecrease(snapshot: Snapshot, batches: seq<Batch>)
    ensures var merged := MergeBatches(snapshot, batches);
            forall token :: token in snapshot ==> token in merged && snapshot[token].block <= merged[token].block
  {
    if batches != [] {
      BlocksNeverDecrease(snapshot, batches[..|batches| - 1]);
    }
  }

  /** The shared object. Each method body is one critical section of its locks. */
  class Subscription {
    var balancesSnapshot: Snapshot
    var tokens: set<Address>
    var sent: seq<BalanceEvent>   // everything ever broadcast; a receiver sees a suffix
    var refreshSignals: nat
    var cancelled: bool

    constructor (tokens: set<Address>)
      ensures balancesSnapshot == map[] && this.tokens == tokens && sent == [] && refreshSignals == 0 && !cancelled
    {
      balancesSnapshot, this.tokens, sent, refreshSignals, cancelled := map[], tokens, [], 0, false;
    }

    method SetWatchedTokens(newTokens: set<Address>) returns (changed: bool)
      modifies this`tokens, this`balancesSnapshot
      ensures changed == (old(tokens) != newTokens) && tokens == newTokens
      ensures balancesSnapshot == if changed then Evict(old(balancesSnapshot), newTokens) else old(balancesSnapshot)
      ensures changed ==> balancesSnapshot.Keys == old(balancesSnapshot).Keys * newTokens
      ensures forall token :: token in balancesSnapshot ==> balancesSnapshot[token] == old(balancesSnapshot)[token]
    {
      if tokens == newTokens {
        return false;
      }
      tokens := newTokens;
      balancesSnapshot := map token | token in balancesSnapshot && token in tokens :: balancesSnapshot[token];
      changed := true;
    }

    /** The merge loop, over the new balances in whatever order the map yields them. */
    method UpdateBalancesAndTakeDiff(newBalances: map<Address, nat>, blockNumber: BlockNumber)
      returns (diff: map<Address, nat>)
      modifies this`balancesSnapshot
      ensures balancesSnapshot == Merge(old(balancesSnapshot), newBalances, blockNumber)
      ensures diff == Diff(old(balancesSnapshot), newBalances, blockNumber)
    {
      diff := map[];
      if newBalances == map[] {
        assert Merge(balancesSnapshot, newBalances, blockNumber) == balancesSnapshot;
        return;
      }

      var rest := newBalances.Keys;
      ghost var done: map<Address, nat> := map[];
      while rest != {}
        invariant rest <= newBalances.Keys
        invariant done.Keys == newBalances.Keys - rest
        invariant forall token :: token in done ==> done[token] == newBalances[token]
        invariant balancesSnapshot == Merge(old(balancesSnapshot), done, blockNumber)
        invariant diff == Diff(old(balancesSnapshot), done, blockNumber)
        decreases |rest|
      {
        var token :| token in rest;
        var newBalance := newBalances[token];
        MergeOneMore(old(balancesSnapshot), done, token, newBalance, blockNumber);
        if token in balancesSnapshot {
          var currentBalance := balancesSnapshot[token];
          if currentBalance.block < blockNumber {
            if currentBalance.amount != newBalance {
              diff := diff[token := newBalance];
            }
            balancesSnapshot := balancesSnapshot[token := Balance(newBalance, blockNumber)];
          }
        } else {
          diff := diff[token := newBalance];
          balancesSnapshot := balancesSnapshot[token := Balance(newBalance, blockNumber)];
        }
        rest := rest - {token};
        done := done[token := newBalance];
      }
      assert done == newBalances;
    }

    method SendEvent(event: BalanceEvent)
      modifies this`sent
      ensures sent == old(sent) + [event]
    {
      sent := sent + [event];
    }

    /** A new receiver starts at the next event to be sent. */
    method Subscribe() returns (next: nat)
      ensures next == |sent|
    {
      next := |sent|;
    }
  }
}
