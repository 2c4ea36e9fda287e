/**
 Exactly when replicas agree and exactly which evicted tokens come back: the two claims that
 do not hold of every run, with a condition that says of any run whether they do.
 */
module ReplicaExactness {
  import opened Domain
  import L = LagClose
  import opened S = Subscription
  import opened Replica

  // ----- agreement -----

  /** Overlaying a run of diffs, in order. */
  function Overlaid(diffs: seq<map<Address, nat>>): map<Address, nat> {
    if diffs == [] then map[] else Overlaid(diffs[..|diffs| - 1]) + diffs[|diffs| - 1]
  }

  /** The diffs in merge order end at the amount of every stored token. */
  ghost predicate MergesRule(s: State) {
    forall token :: token in s.snapshot ==>
      token in Overlaid(s.merged) && Overlaid(s.merged)[token] == s.snapshot[token].amount
  }

  /**
   Whatever the order: a client's view overlays what it received, and for a stored token that
   no event since its attachment and no open window names, it holds the server's amount.
   */
  ghost predicate Replays(s: State, client: Client) {
    match client
    case Attaching(next) => next <= |s.sent|
    case Live(since, stream, view) =>
      stream.Streaming? ==>
        since <= stream.next <= |s.sent| && Shows(s, since, view) && Follows(s.sent[since..stream.next], view)
  }

  ghost predicate Follows(received: seq<BalanceEvent>, view: map<Address, nat>) {
    forall token :: token in Carried(received) ==> token in view && view[token] == Carried(received)[token]
  }

  ghost predicate Shows(s: State, since: nat, view: map<Address, nat>)
    requires since <= |s.sent|
  {
    forall token :: token in s.snapshot && token !in Carried(s.sent[since..]) && token !in Unsent(s.open) ==>
      token in view && view[token] == s.snapshot[token].amount
  }

  ghost predicate FreeInv(s: State) {
    && WellFormed(s)
    && MergesRule(s)
    && forall c :: c in s.clients ==> Replays(s, s.clients[c])
  }

  lemma OverlaidAppend(diffs: seq<map<Address, nat>>, diff: map<Address, nat>)
    ensures Overlaid(diffs + [diff]) == Overlaid(diffs) + diff
  {
    assert (diffs + [diff])[..|diffs|] == diffs;
  }

  /** After a merge, a stored token has its diff's amount, or the amount it had before. */
  lemma DiffOrSame(snapshot: Snapshot, balances: map<Address, nat>, block: BlockNumber, token: Address)
    requires token in Merge(snapshot, balances, block)
    ensures var diff, merged := Diff(snapshot, balances, block), Merge(snapshot, balances, block);
            if token in diff then diff[token] == merged[token].amount
            else token in snapshot && snapshot[token].amount == merged[token].amount
  {
  }

  lemma MergeIsFree(s: State, e: Event)
    requires FreeInv(s) && e.MergeResult? && CanMerge(s, e)
    ensures FreeInv(Step(s, e))
  {
    var t := AfterMerge(s, e);
    var diff := Diff(s.snapshot, e.balances, e.block);
    StepIsWellFormed(s, e);
    MergeExtendsUnsent(s, e);
    OverlaidAppend(s.merged, diff);
    forall token | token in t.snapshot
      ensures token in Overlaid(t.merged) && Overlaid(t.merged)[token] == t.snapshot[token].amount
    {
      DiffOrSame(s.snapshot, e.balances, e.block, token);
    }
    forall c | c in t.clients ensures Replays(t, t.clients[c]) {
      MergeKeepsReplay(s, e, s.clients[c]);
    }
  }

  lemma MergeKeepsReplay(s: State, e: Event, client: Client)
    requires WellFormed(s) && e.MergeResult? && CanMerge(s, e) && Replays(s, client)
    ensures Replays(AfterMerge(s, e), client)
  {
    var t := AfterMerge(s, e);
    MergeExtendsUnsent(s, e);
    if client.Live? && client.stream.Streaming? {
      forall token | token in t.snapshot && token !in Carried(t.sent[client.since..]) && token !in Unsent(t.open)
        ensures token in client.view && client.view[token] == t.snapshot[token].amount
      {
        DiffOrSame(s.snapshot, e.balances, e.block, token);
      }
    }
  }

  /** Sending an event moves its tokens from the open windows to the events sent. */
  lemma SendKeepsReplay(s: State, t: State, event: BalanceEvent, client: Client)
    requires t.snapshot == s.snapshot && t.sent == s.sent + [event]
    requires Unsent(s.open).Keys <= Unsent(t.open).Keys + Payload(event).Keys
    requires Replays(s, client)
    ensures Replays(t, client)
  {
    if client.Live? && client.stream.Streaming? {
      CarriedAppend(s.sent, client.since, event);
      assert t.sent[client.since..client.stream.next] == s.sent[client.since..client.stream.next];
    }
  }

  lemma UnsentWithout(open: seq<Window>, i: nat)
    requires i < |open|
    ensures Unsent(open).Keys <= Unsent(open[..i] + open[i + 1..]).Keys + open[i].diff.Keys
  {
    UnsentAround(open, i);
    UnsentSplit(open[..i], open[i + 1..]);
    WithoutMiddle(Unsent(open[..i]), open[i].diff, Unsent(open[i + 1..]));
  }

  lemma WithoutMiddle(a: map<Address, nat>, b: map<Address, nat>, c: map<Address, nat>)
    ensures ((a + b) + c).Keys <= (a + c).Keys + b.Keys
  {
  }

  lemma BroadcastIsFree(s: State, e: Event)
    requires FreeInv(s) && e.Broadcast?
    ensures FreeInv(Step(s, e))
  {
    var t := Step(s, e);
    StepIsWellFormed(s, e);
    if WindowOf(s.open, e.task).Some? {
      var i := WindowOf(s.open, e.task).value;
      UnsentWithout(s.open, i);
      forall c | c in t.clients ensures Replays(t, t.clients[c]) {
        SendKeepsReplay(s, t, BalanceUpdate(s.open[i].diff), s.clients[c]);
      }
    }
  }

  lemma ErrorIsFree(s: State, code: nat)
    requires FreeInv(s)
    ensures FreeInv(Step(s, SendError(code)))
  {
    var t := Step(s, SendError(code));
    StepIsWellFormed(s, SendError(code));
    forall c | c in t.clients ensures Replays(t, t.clients[c]) {
      SendKeepsReplay(s, t, Error(code), s.clients[c]);
    }
  }

  lemma ReplaceIsFree(s: State, tokens: set<Address>)
    requires FreeInv(s)
    ensures FreeInv(Step(s, Replace(tokens)))
  {
    var t := Step(s, Replace(tokens));
    StepIsWellFormed(s, Replace(tokens));
    forall c | c in t.clients ensures Replays(t, t.clients[c]) {
      assert Replays(s, s.clients[c]);
    }
  }

  lemma {:induction false} CarriedHas(events: seq<BalanceEvent>, i: nat)
    requires i < |events|
    ensures Payload(events[i]).Keys <= Carried(events).Keys
  {
    if i < |events| - 1 {
      CarriedHas(events[..|events| - 1], i);
    }
  }

  lemma ReceiveKeepsReplay(s: State, since: nat, next: nat, view: map<Address, nat>)
    requires next < |s.sent| && Replays(s, Live(since, L.Streaming(next), view))
    ensures Replays(s, Live(since, L.Streaming(next + 1), view + Payload(s.sent[next])))
  {
    var event := s.sent[next];
    assert s.sent[since..][next - since] == event;
    CarriedHas(s.sent[since..], next - since);
    assert s.sent[since..next + 1][..next - since] == s.sent[since..next];
    assert Carried(s.sent[since..next + 1]) == Carried(s.sent[since..next]) + Payload(event);
  }

  /** Only the clients change, and only one of them. */
  lemma ClientIsFree(s: State, t: State, c: nat)
    requires FreeInv(s) && WellFormed(t) && t == s.(clients := t.clients)
    requires forall d :: d in t.clients && d != c ==> d in s.clients && t.clients[d] == s.clients[d]
    requires c in t.clients ==> Replays(s, t.clients[c])
    ensures FreeInv(t)
  {
    forall d | d in t.clients ensures Replays(t, t.clients[d]) {
      assert Replays(s, t.clients[d]);
      SameReplay(s, t, t.clients[d]);
    }
  }

  lemma SameReplay(s: State, t: State, client: Client)
    requires Replays(s, client) && t == s.(clients := t.clients)
    ensures Replays(t, client)
  {
  }

  lemma ReceiveIsFree(s: State, c: nat)
    requires FreeInv(s)
    ensures FreeInv(Step(s, Receive(c)))
  {
    var t := Step(s, Receive(c));
    StepIsWellFormed(s, Receive(c));
    if t != s {
      var client := s.clients[c];
      assert Replays(s, client);
      if client.stream.Streaming? && client.stream.next < |s.sent| && !L.Lagged(client.stream.next, |s.sent|) {
        ReceiveKeepsReplay(s, client.since, client.stream.next, client.view);
      }
      ClientIsFree(s, t, c);
    }
  }

  lemma SeedIsFree(s: State, c: nat)
    requires FreeInv(s)
    ensures FreeInv(Step(s, SeedClient(c)))
  {
    var t := Step(s, SeedClient(c));
    StepIsWellFormed(s, SeedClient(c));
    if t != s {
      assert Replays(s, s.clients[c]);
      var next := s.clients[c].next;
      assert s.sent[next..next] == [];
      assert Follows(s.sent[next..next], Amounts(s.snapshot));
      ClientIsFree(s, t, c);
    }
  }

  lemma ComeAndGoIsFree(s: State, e: Event)
    requires FreeInv(s) && (e.AttachClient? || e.Detach?)
    ensures FreeInv(Step(s, e))
  {
    var t := Step(s, e);
    StepIsWellFormed(s, e);
    if t != s {
      ClientIsFree(s, t, e.client);
    }
  }

  lemma CheckIsFree(s: State, tokens: set<Address>)
    requires FreeInv(s)
    ensures FreeInv(Step(s, CheckWatched(tokens)))
  {
    var t := Step(s, CheckWatched(tokens));
    StepIsWellFormed(s, CheckWatched(tokens));
    forall c | c in t.clients ensures Replays(t, t.clients[c]) {
      assert Replays(s, s.clients[c]);
    }
  }

  lemma StepIsFree(s: State, e: Event)
    requires FreeInv(s)
    ensures FreeInv(Step(s, e))
  {
    match e
    case MergeResult(_, _, _, _) => if CanMerge(s, e) { MergeIsFree(s, e); }
    case Broadcast(_) => BroadcastIsFree(s, e);
    case SendError(code) => ErrorIsFree(s, code);
    case Replace(tokens) => ReplaceIsFree(s, tokens);
    case Receive(c) => ReceiveIsFree(s, c);
    case SeedClient(c) => SeedIsFree(s, c);
    case CheckWatched(tokens) => CheckIsFree(s, tokens);
    case _ => ComeAndGoIsFree(s, e);
  }

  lemma {:induction false} RunIsFree(tokens: set<Address>, events: seq<Event>)
    ensures FreeInv(Run(tokens, events))
  {
    if events != [] {
      var earlier, last := events[..|events| - 1], events[|events| - 1];
      assert events == earlier + [last];
      RunIsFree(tokens, earlier);
      RunAppend(tokens, earlier, last);
      StepIsFree(Run(tokens, earlier), last);
    }
  }

  /**
   Agreement, exactly, for every run. Once no diff is on its way, an open client that has
   received everything sent holds the server's amounts if and only if, for the stored tokens
   named since it attached, overlaying the broadcasts in the order they were sent ends where
   overlaying the diffs in the order they were merged does.
   */
  lemma AgreementIsExact(tokens: set<Address>, events: seq<Event>, c: nat)
    requires var s := Run(tokens, events);
             s.open == [] && c in s.clients && s.clients[c].Live? && s.clients[c].stream == L.Streaming(|s.sent|)
    ensures var s := Run(tokens, events);
            var client := s.clients[c];
            && client.since <= |s.sent|
            && var named := Carried(s.sent[client.since..]);
            (Holds(s.snapshot, client.view) <==>
               forall token :: token in s.snapshot && token in named ==>
                 token in Overlaid(s.merged) && named[token] == Overlaid(s.merged)[token])
  {
    var s := Run(tokens, events);
    RunIsFree(tokens, events);
    assert Replays(s, s.clients[c]);
    assert s.sent[s.clients[c].since..|s.sent|] == s.sent[s.clients[c].since..];
    SentOrderDecides(s, s.clients[c].since, s.clients[c].view);
  }

  lemma SentOrderDecides(s: State, since: nat, view: map<Address, nat>)
    requires MergesRule(s) && s.open == [] && since <= |s.sent| && Shows(s, since, view)
      && Follows(s.sent[since..], view)
    ensures var named := Carried(s.sent[since..]);
            Holds(s.snapshot, view) <==>
              forall token :: token in s.snapshot && token in named ==>
                token in Overlaid(s.merged) && named[token] == Overlaid(s.merged)[token]
  {
    var named := Carried(s.sent[since..]);
    forall token | token in s.snapshot
      ensures token in Overlaid(s.merged) && Overlaid(s.merged)[token] == s.snapshot[token].amount
      ensures token in named ==> token in view && view[token] == named[token]
      ensures token !in named ==> token in view && view[token] == s.snapshot[token].amount
    {
    }
  }

  // ----- where a client starts -----

  /** The number of events sent before the client's receiver existed. */
  function StartOf(client: Client): nat {
    match client
    case Attaching(next) => next
    case Live(since, _, _) => since
  }

  ghost predicate AttachedAt(tokens: set<Address>, events: seq<Event>, c: nat, start: nat, i: nat)
    requires i < |events|
  {
    events[i] == AttachClient(c) && |Run(tokens, events[..i]).sent| == start
  }

  lemma ClientStep(s: State, e: Event, c: nat)
    requires WellFormed(s) && c in Step(s, e).clients
    ensures var start := StartOf(Step(s, e).clients[c]);
            if c in s.clients then start == StartOf(s.clients[c]) else e == AttachClient(c) && start == |s.sent|
  {
  }

  /** What a client gets begins with the first event sent after it attached. */
  lemma {:induction false} ClientStartsWhereItAttached(tokens: set<Address>, events: seq<Event>,
                                                       c: nat) returns (i: nat)
    requires c in Run(tokens, events).clients
    ensures i < |events| && AttachedAt(tokens, events, c, StartOf(Run(tokens, events).clients[c]), i)
  {
    var earlier, last := events[..|events| - 1], events[|events| - 1];
    assert events == earlier + [last];
    RunAppend(tokens, earlier, last);
    ClientStep(Run(tokens, earlier), last, c);
    if c in Run(tokens, earlier).clients {
      i := ClientStartsWhereItAttached(tokens, earlier, c);
      assert events[..i] == earlier[..i];
    } else {
      i := |earlier|;
      assert events[..i] == earlier;
    }
  }

  // ----- evicted tokens that come back -----

  ghost predicate Clean(s: State)
    requires WellFormed(s)
  {
    s.snapshot.Keys <= s.Watched()
  }

  /** The step merges a balance for the token. */
  predicate Carries(s: State, e: Event, token: Address) {
    e.MergeResult? && CanMerge(s, e) && token in e.balances
  }

  ghost predicate MergesWatched(s: State, e: Event)
    requires WellFormed(s)
  {
    forall token :: Carries(s, e, token) ==> token in s.Watched()
  }

  ghost predicate CleanAt(tokens: set<Address>, events: seq<Event>, i: nat)
    requires i <= |events|
  {
    Clean(Run(tokens, events[..i]))
  }

  ghost predicate MergesWatchedAt(tokens: set<Address>, events: seq<Event>, i: nat)
    requires i < |events|
  {
    MergesWatched(Run(tokens, events[..i]), events[i])
  }

  lemma CleanStep(tokens: set<Address>, events: seq<Event>, i: nat)
    requires i < |events| && CleanAt(tokens, events, i)
    ensures CleanAt(tokens, events, i + 1) <==> MergesWatchedAt(tokens, events, i)
  {
    assert events[..i + 1] == events[..i] + [events[i]];
    RunAppend(tokens, events[..i], events[i]);
    EvictionIsExact(Run(tokens, events[..i]), events[i]);
  }

  lemma {:induction false} StaysClean(tokens: set<Address>, events: seq<Event>, i: nat)
    requires i <= |events| && forall j :: 0 <= j < |events| ==> MergesWatchedAt(tokens, events, j)
    ensures CleanAt(tokens, events, i)
  {
    if i > 0 {
      StaysClean(tokens, events, i - 1);
      CleanStep(tokens, events, i - 1);
    } else {
      assert events[..0] == [];
    }
  }

  /**
   All along a run only watched tokens are stored, if and only if every merge carries only
   tokens watched at that moment.
   */
  lemma CleanRunIsExact(tokens: set<Address>, events: seq<Event>)
    ensures (forall i :: 0 <= i <= |events| ==> CleanAt(tokens, events, i)) <==>
            (forall i :: 0 <= i < |events| ==> MergesWatchedAt(tokens, events, i))
  {
    if forall i :: 0 <= i < |events| ==> MergesWatchedAt(tokens, events, i) {
      forall i | 0 <= i <= |events| ensures CleanAt(tokens, events, i) {
        StaysClean(tokens, events, i);
      }
    }
    if forall i :: 0 <= i <= |events| ==> CleanAt(tokens, events, i) {
      forall i | 0 <= i < |events| ensures MergesWatchedAt(tokens, events, i) {
        CleanStep(tokens, events, i);
      }
    }
  }

  lemma {:induction false} WatchesGrow(tokens: set<Address>, events: seq<Event>, i: nat)
    requires i <= |events|
    ensures |Run(tokens, events[..i]).watches| <= |Run(tokens, events).watches|
  {
    if i < |events| {
      var earlier, last := events[..|events| - 1], events[|events| - 1];
      assert events == earlier + [last] && events[..i] == earlier[..i];
      WatchesGrow(tokens, earlier, i);
      RunAppend(tokens, earlier, last);
    } else {
      assert events[..i] == events;
    }
  }

  /** Some merge since the last replacement carried the token. */
  ghost predicate CarriedSince(tokens: set<Address>, events: seq<Event>, token: Address) {
    exists i :: 0 <= i < |events| && CarriedAt(tokens, events, token, i)
  }

  ghost predicate CarriedAt(tokens: set<Address>, events: seq<Event>, token: Address, i: nat)
    requires i < |events|
  {
    && Carries(Run(tokens, events[..i]), events[i], token)
    && Run(tokens, events[..i]).watches == Run(tokens, events).watches
  }

  lemma CarriedSinceAppend(tokens: set<Address>, earlier: seq<Event>, last: Event, token: Address)
    ensures var s, t := Run(tokens, earlier), Run(tokens, earlier + [last]);
            CarriedSince(tokens, earlier + [last], token) <==>
              t.watches == s.watches && (CarriedSince(tokens, earlier, token) || Carries(s, last, token))
  {
    var events := earlier + [last];
    if CarriedSince(tokens, events, token) {
      var i :| 0 <= i < |events| && CarriedAt(tokens, events, token, i);
      CarriedAtAppend(tokens, earlier, last, token, i);
    }
    if CarriedSince(tokens, earlier, token) {
      var i :| 0 <= i < |earlier| && CarriedAt(tokens, earlier, token, i);
      CarriedAtAppend(tokens, earlier, last, token, i);
    }
    CarriedAtAppend(tokens, earlier, last, token, |earlier|);
  }

  lemma CarriedAtAppend(tokens: set<Address>, earlier: seq<Event>, last: Event, token: Address, i: nat)
    requires i <= |earlier|
    ensures var s, t := Run(tokens, earlier), Run(tokens, earlier + [last]);
            CarriedAt(tokens, earlier + [last], token, i) <==>
              t.watches == s.watches
                && if i < |earlier| then CarriedAt(tokens, earlier, token, i) else Carries(s, last, token)
  {
    var events := earlier + [last];
    assert events[..i] == earlier[..i] && earlier[..|earlier|] == earlier;
    RunAppend(tokens, earlier, last);
    WatchesGrow(tokens, earlier, i);
    OnlyReplaceWatches(Run(tokens, earlier), last);
  }

  /** Either the watched set stays, or it is replaced by a further one. */
  lemma OnlyReplaceWatches(s: State, e: Event)
    requires WellFormed(s)
    ensures Step(s, e).watches == s.watches || |Step(s, e).watches| == |s.watches| + 1
  {
  }

  /** Exactly which unwatched tokens a state holds: those that some merge since the last replacement carried. */
  lemma {:induction false} RevivalIsExact(tokens: set<Address>, events: seq<Event>, token: Address)
    requires token !in Run(tokens, events).Watched()
    ensures (token in Run(tokens, events).snapshot) <==> CarriedSince(tokens, events, token)
  {
    if events != [] {
      var earlier, last := events[..|events| - 1], events[|events| - 1];
      var s := Run(tokens, earlier);
      assert events == earlier + [last];
      RunAppend(tokens, earlier, last);
      CarriedSinceAppend(tokens, earlier, last, token);
      UnwatchedStep(s, last, token);
      if Step(s, last).watches == s.watches {
        RevivalIsExact(tokens, earlier, token);
      }
    }
  }

  lemma UnwatchedStep(s: State, e: Event, token: Address)
    requires WellFormed(s) && WellFormed(Step(s, e)) && token !in Step(s, e).Watched()
    ensures token in Step(s, e).snapshot <==>
      Step(s, e).watches == s.watches && (token in s.snapshot || Carries(s, e, token))
  {
    StepKeys(s, e);
  }
}
