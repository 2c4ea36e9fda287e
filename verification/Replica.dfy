/**
 One session as a replication protocol. Two publisher tasks merge multicall results into
 the shared snapshot and later broadcast the diff they took away; clients attach a
 receiver, read the snapshot once, and then live on diffs. Every lock section and every
 send is one atomic step, in any interleaving.
 */
module Replica {
  import opened Domain
  import opened LagClose
  import opened S = Subscription

  /** The two background tasks of a session. */
  datatype Task = SnapshotUpdater | QueueReceiver

  /** A merge whose diff has not been broadcast yet. */
  datatype Window = Window(task: Task, diff: map<Address, nat>)

  datatype Client =
    | Attaching(next: nat)                               // has a receiver, has not read the snapshot
    | Live(since: nat, stream: Stream, view: map<Address, nat>)   // attached when `since` events had been sent

  datatype State = State(
    watches: seq<set<Address>>,       // every watched set so far; the last is current
    tickets: set<(Address, nat)>,     // tokens found in a token-list copy or a watch check, with the number of that set
    snapshot: Snapshot,
    origin: map<Address, nat>,        // history: the ticket number each stored entry was read under
    sent: seq<BalanceEvent>,
    open: seq<Window>,                // merged but not yet broadcast, oldest merge first
    merged: seq<map<Address, nat>>,   // history: every diff, in the order of the merges
    clients: map<nat, Client>
  ) {
    function Watched(): set<Address>
      requires watches != []
    {
      watches[|watches| - 1]
    }
  }

  function Init(tokens: set<Address>): State {
    State.State([tokens], {}, map[], map[], [], [], [], map[])
  }

  datatype Event =
    | CheckWatched(tokens: set<Address>)
    | MergeResult(task: Task, balances: map<Address, nat>, block: BlockNumber, under: map<Address, nat>)
    | Broadcast(task: Task)
    | SendError(code: nat)
    | Replace(tokens: set<Address>)
    | AttachClient(client: nat)
    | SeedClient(client: nat)
    | Receive(client: nat)
    | Detach(client: nat)

  /** Position of the task's window among the open ones. */
  function WindowOf(open: seq<Window>, task: Task): (found: Option<nat>)
    ensures found.Some? ==> found.value < |open| && open[found.value].task == task
    ensures found.None? ==> forall i :: 0 <= i < |open| ==> open[i].task != task
  {
    if open == [] then None
    else if open[|open| - 1].task == task then Some(|open| - 1)
    else WindowOf(open[..|open| - 1], task)
  }

  /** A task merges only after broadcasting its previous diff, and only tokens it was told to read. */
  predicate CanMerge(s: State, e: Event)
    requires e.MergeResult?
  {
    && WindowOf(s.open, e.task).None?
    && forall token :: token in e.balances ==> token in e.under && (token, e.under[token]) in s.tickets
  }

  function AfterMerge(s: State, e: Event): State
    requires e.MergeResult? && CanMerge(s, e) && s.snapshot.Keys <= s.origin.Keys
  {
    var diff := Diff(s.snapshot, e.balances, e.block);
    var merged := Merge(s.snapshot, e.balances, e.block);
    s.(snapshot := merged,
       origin := map token | token in merged ::
         if token in e.balances && Accepts(s.snapshot, token, e.block) then e.under[token] else s.origin[token],
       open := if diff == map[] then s.open else s.open + [Window(e.task, diff)],
       merged := s.merged + [diff])
  }

  function AfterReceive(s: State, c: nat): State {
    if c in s.clients && s.clients[c].Live? then
      match Poll(s.clients[c].stream, s.sent, true)
      case Item(event, stream) =>
        s.(clients := s.clients[c := Live(s.clients[c].since, stream, s.clients[c].view + Payload(event))])
      case Pending => s
      case End => s.(clients := s.clients - {c})
    else s
  }

  function Step(s: State, e: Event): State
    requires WellFormed(s)
  {
    match e
    case CheckWatched(tokens) =>
      s.(tickets := s.tickets + set token | token in tokens * s.Watched() :: (token, |s.watches| - 1))
    case MergeResult(_, _, _, _) => if CanMerge(s, e) then AfterMerge(s, e) else s
    case Broadcast(task) =>
      (match WindowOf(s.open, task)
       case None => s
       case Some(i) => s.(open := s.open[..i] + s.open[i + 1..], sent := s.sent + [BalanceUpdate(s.open[i].diff)]))
    case SendError(code) => s.(sent := s.sent + [Error(code)])
    case Replace(tokens) =>
      if tokens == s.Watched() then s
      else s.(watches := s.watches + [tokens], snapshot := Evict(s.snapshot, tokens),
              origin := map token | token in s.origin && token in tokens :: s.origin[token])
    case AttachClient(c) => if c in s.clients then s else s.(clients := s.clients[c := Attaching(|s.sent|)])
    case SeedClient(c) =>
      if c in s.clients && s.clients[c].Attaching? then
        s.(clients := s.clients[c := Live(s.clients[c].next, Streaming(s.clients[c].next), Amounts(s.snapshot))])
      else s
    case Receive(c) => AfterReceive(s, c)
    case Detach(c) => s.(clients := s.clients - {c})
  }

  // ----- provenance: every run -----

  /** Every stored entry was read under a ticket, and every ticket names a token of its watched set. */
  ghost predicate WellFormed(s: State) {
    && s.watches != []
    && s.origin.Keys == s.snapshot.Keys
    && (forall token, n :: (token, n) in s.tickets ==> 0 <= n < |s.watches| && token in s.watches[n])
    && (forall token :: token in s.snapshot ==> s.origin[token] < |s.watches| && token in s.watches[s.origin[token]])
  }

  lemma StepIsWellFormed(s: State, e: Event)
    requires WellFormed(s)
    ensures WellFormed(Step(s, e))
  {
    if e.MergeResult? && CanMerge(s, e) {
      var t := Step(s, e);
      assert t.watches == s.watches && t.tickets == s.tickets;
      forall token | token in t.snapshot
        ensures t.origin[token] < |t.watches| && token in t.watches[t.origin[token]]
      {
        if token in e.balances && Accepts(s.snapshot, token, e.block) {
          assert (token, e.under[token]) in s.tickets;
        }
      }
    }
  }

  ghost function Continue(s: State, events: seq<Event>): (t: State)
    requires WellFormed(s)
    ensures WellFormed(t)
  {
    if events == [] then s
    else
      var before := Continue(s, events[..|events| - 1]);
      StepIsWellFormed(before, events[|events| - 1]);
      Step(before, events[|events| - 1])
  }

  ghost function Run(tokens: set<Address>, events: seq<Event>): (s: State)
    ensures WellFormed(s)
  {
    Continue(Init(tokens), events)
  }

  lemma ContinueAppend(s: State, events: seq<Event>, e: Event)
    requires WellFormed(s)
    ensures Continue(s, events + [e]) == Step(Continue(s, events), e)
  {
    assert (events + [e])[..|events|] == events;
  }

  /**
   In every reachable state, a stored token that is not watched was read under a token-list
   copy or watch check taken before the last replacement, when it was still watched.
   */
  lemma UnwatchedComesFromOldRead(tokens: set<Address>, events: seq<Event>, token: Address)
    requires var s := Run(tokens, events); token in s.snapshot && token !in s.Watched()
    ensures var s := Run(tokens, events);
            s.origin[token] < |s.watches| - 1 && token in s.watches[s.origin[token]]
  {
    var s := Run(tokens, events);
    assert WellFormed(s);
  }

  lemma RunAppend(tokens: set<Address>, events: seq<Event>, e: Event)
    ensures Run(tokens, events + [e]) == Step(Run(tokens, events), e)
  {
    ContinueAppend(Init(tokens), events, e);
  }

  lemma OnlyMergeAndReplaceMatter(s: State, e: Event)
    requires WellFormed(s) && !e.MergeResult? && !e.Replace?
    ensures Step(s, e).snapshot == s.snapshot && Step(s, e).watches == s.watches
  {
  }

  lemma MergeKeys(s: State, e: Event)
    requires WellFormed(s) && e.MergeResult? && CanMerge(s, e)
    ensures Step(s, e).snapshot.Keys == s.snapshot.Keys + e.balances.Keys && Step(s, e).watches == s.watches
  {
  }

  /** What a step does to the stored tokens and the watched sets. */
  lemma StepKeys(s: State, e: Event)
    requires WellFormed(s)
    ensures var t := Step(s, e);
            if e.MergeResult? && CanMerge(s, e) then
              t.snapshot.Keys == s.snapshot.Keys + e.balances.Keys && t.watches == s.watches
            else if e.Replace? && e.tokens != s.Watched() then
              t.snapshot.Keys == s.snapshot.Keys * e.tokens && t.watches == s.watches + [e.tokens]
            else
              t.snapshot == s.snapshot && t.watches == s.watches
  {
    if e.MergeResult? {
      if CanMerge(s, e) {
        MergeKeys(s, e);
      }
    } else if e.Replace? {
      if e.tokens != s.Watched() {
        ReplaceEvicts(s, e.tokens);
      }
    } else {
      OnlyMergeAndReplaceMatter(s, e);
    }
  }

  /** Exactly when a step leaves an unwatched token in a clean snapshot: when it merges a balance for one. */
  lemma EvictionIsExact(s: State, e: Event)
    requires WellFormed(s) && s.snapshot.Keys <= s.Watched()
    ensures WellFormed(Step(s, e))
    ensures var t := Step(s, e);
            (t.snapshot.Keys <= t.Watched()) <==> (e.MergeResult? && CanMerge(s, e) ==> e.balances.Keys <= s.Watched())
  {
    StepIsWellFormed(s, e);
    StepKeys(s, e);
  }

  /** A replacement leaves only tokens of the new set, and of those every stored entry as it was. */
  lemma ReplaceEvicts(s: State, tokens: set<Address>)
    requires WellFormed(s) && tokens != s.Watched()
    ensures var t := Step(s, Replace(tokens));
            && t.watches == s.watches + [tokens] && t.snapshot.Keys == s.snapshot.Keys * tokens
            && forall token :: token in t.snapshot ==>
              t.snapshot[token] == s.snapshot[token] && t.origin[token] == s.origin[token]
  {
  }

  /** A read in flight across a replacement does bring an evicted token back. */
  lemma InFlightReadRevivesEvicted(token: Address, amount: nat, block: BlockNumber)
    ensures var s := Run({token}, [CheckWatched({token}), Replace({}),
                                   MergeResult(SnapshotUpdater, map[token := amount], block, map[token := 0])]);
            s.Watched() == {} && token in s.snapshot
  {
    var e2 := MergeResult(SnapshotUpdater, map[token := amount], block, map[token := 0]);
    var p1 := [] + [CheckWatched({token})];
    var p2 := p1 + [Replace({})];
    assert [CheckWatched({token}), Replace({}), e2] == p2 + [e2];
    RunAppend({token}, [], CheckWatched({token}));
    RunAppend({token}, p1, Replace({}));
    RunAppend({token}, p2, e2);
    CheckedThenDropped(token);
    RevivedBy(Init({token}).(tickets := {(token, 0)}, watches := [{token}, {}]), token, e2);
  }

  lemma CheckedThenDropped(token: Address)
    ensures var s1 := Init({token}).(tickets := {(token, 0)});
            && Step(Init({token}), CheckWatched({token})) == s1
            && Step(s1, Replace({})) == s1.(watches := [{token}, {}])
  {
    assert token in {token} * Init({token}).Watched();
    var s1 := Init({token}).(tickets := {(token, 0)});
    assert Evict(s1.snapshot, {}) == map[];
  }

  lemma RevivedBy(s: State, token: Address, e: Event)
    requires WellFormed(s) && s.open == [] && (token, 0) in s.tickets
    requires e.MergeResult? && e.balances.Keys == {token} && e.under == map[token := 0]
    ensures Step(s, e).watches == s.watches && token in Step(s, e).snapshot
  {
    assert CanMerge(s, e);
    assert token in e.balances;
  }

  // ----- agreement -----

  /** Overlaying a run of events, in order. */
  function Carried(events: seq<BalanceEvent>): map<Address, nat> {
    if events == [] then map[] else Carried(events[..|events| - 1]) + Payload(events[|events| - 1])
  }

  /** Overlaying the open windows, in the order of their merges. */
  function Unsent(open: seq<Window>): map<Address, nat> {
    if open == [] then map[] else Unsent(open[..|open| - 1]) + open[|open| - 1].diff
  }

  /** What a receiver at `next` is still going to get. */
  function Due(s: State, next: nat): map<Address, nat>
    requires next <= |s.sent|
  {
    Carried(s.sent[next..]) + Unsent(s.open)
  }

  /** The view holds the server's amount for every stored token. */
  predicate Holds(snapshot: Snapshot, view: map<Address, nat>) {
    forall token :: token in snapshot ==> token in view && view[token] == snapshot[token].amount
  }

  /** Where the changes mention a stored token, they end at the server's amount. */
  predicate Agrees(snapshot: Snapshot, changes: map<Address, nat>) {
    forall token :: token in snapshot && token in changes ==> changes[token] == snapshot[token].amount
  }

  predicate ClientInv(s: State, client: Client) {
    match client
    case Attaching(next) => next <= |s.sent| && Agrees(s.snapshot, Due(s, next))
    case Live(_, Streaming(next), view) => next <= |s.sent| && Holds(s.snapshot, view + Due(s, next))
    case Live(_, Closed, _) => true
  }

  ghost predicate Inv(s: State) {
    && WellFormed(s)
    && Agrees(s.snapshot, Unsent(s.open))
    && forall c :: c in s.clients ==> ClientInv(s, s.clients[c])
  }

  /** A broadcast does not overtake an older open window on a token they share. */
  predicate InOrder(s: State, e: Event) {
    e.Broadcast? && WindowOf(s.open, e.task).Some? ==>
      var i := WindowOf(s.open, e.task).value;
      forall j :: 0 <= j < i ==> s.open[j].diff.Keys !! s.open[i].diff.Keys
  }

  lemma Associates(a: map<Address, nat>, b: map<Address, nat>, c: map<Address, nat>)
    ensures (a + b) + c == a + (b + c)
  {
  }

  lemma {:induction false} CarriedHead(events: seq<BalanceEvent>)
    requires events != []
    ensures Carried(events) == Payload(events[0]) + Carried(events[1..])
  {
    if |events| == 1 {
      assert events[..0] == [] && events[1..] == [];
    } else {
      var front, last := events[..|events| - 1], events[|events| - 1];
      CarriedHead(front);
      assert front[1..] == events[1..][..|events| - 2];
      Associates(Payload(events[0]), Carried(front[1..]), Payload(last));
    }
  }

  lemma {:induction false} UnsentSplit(a: seq<Window>, b: seq<Window>)
    ensures Unsent(a + b) == Unsent(a) + Unsent(b)
  {
    if b == [] {
      assert a + b == a;
    } else {
      assert (a + b)[..|a + b| - 1] == a + b[..|b| - 1];
      UnsentSplit(a, b[..|b| - 1]);
    }
  }

  lemma {:induction false} UnsentKeys(open: seq<Window>, other: map<Address, nat>)
    requires forall j :: 0 <= j < |open| ==> open[j].diff.Keys !! other.Keys
    ensures Unsent(open).Keys !! other.Keys
  {
    if open != [] {
      UnsentKeys(open[..|open| - 1], other);
    }
  }

  lemma Commutes(a: map<Address, nat>, b: map<Address, nat>)
    requires a.Keys !! b.Keys
    ensures a + b == b + a
  {
  }

  lemma UnsentThree(older: seq<Window>, window: Window, younger: seq<Window>)
    ensures Unsent(older + [window] + younger) == (Unsent(older) + window.diff) + Unsent(younger)
  {
    UnsentSplit(older + [window], younger);
    UnsentAppend(older, window);
  }

  lemma UnsentAround(open: seq<Window>, i: nat)
    requires i < |open|
    ensures Unsent(open) == (Unsent(open[..i]) + open[i].diff) + Unsent(open[i + 1..])
  {
    var older, younger := open[..i], open[i + 1..];
    assert open == older + [open[i]] + younger;
    UnsentThree(older, open[i], younger);
  }

  /** Taking out a window that shares no token with the older ones, and applying it first, changes nothing. */
  lemma UnsentCommutes(open: seq<Window>, i: nat)
    requires i < |open| && forall j :: 0 <= j < i ==> open[j].diff.Keys !! open[i].diff.Keys
    ensures open[i].diff + Unsent(open[..i] + open[i + 1..]) == Unsent(open)
  {
    UnsentAround(open, i);
    UnsentSplit(open[..i], open[i + 1..]);
    UnsentKeys(open[..i], open[i].diff);
    RegroupUnsent(open[i].diff, Unsent(open[..i]), Unsent(open[i + 1..]));
  }

  lemma RegroupUnsent(moved: map<Address, nat>, older: map<Address, nat>, younger: map<Address, nat>)
    requires older.Keys !! moved.Keys
    ensures moved + (older + younger) == (older + moved) + younger
  {
    Commutes(older, moved);
    Associates(moved, older, younger);
  }

  /** A merge whose diff joins what is due keeps agreement, as a matter of maps. */
  lemma MergeOverlays(snapshot: Snapshot, balances: map<Address, nat>, block: BlockNumber, changes: map<Address, nat>)
    ensures var diff := Diff(snapshot, balances, block);
            var merged := Merge(snapshot, balances, block);
            && (Agrees(snapshot, changes) ==> Agrees(merged, changes + diff))
            && (Holds(snapshot, changes) ==> Holds(merged, changes + diff))
  {
    var diff := Diff(snapshot, balances, block);
    var merged := Merge(snapshot, balances, block);
    forall token | token in merged
      ensures token in diff ==> diff[token] == merged[token].amount
      ensures token !in diff ==> token in snapshot && snapshot[token].amount == merged[token].amount
    {
    }
  }

  lemma MergeKeepsClient(s: State, e: Event, client: Client)
    requires WellFormed(s) && e.MergeResult? && CanMerge(s, e) && ClientInv(s, client)
    ensures ClientInv(AfterMerge(s, e), client)
  {
    var diff := Diff(s.snapshot, e.balances, e.block);
    MergeExtendsUnsent(s, e);
    match client
    case Attaching(next) =>
      Associates(Carried(s.sent[next..]), Unsent(s.open), diff);
      MergeOverlays(s.snapshot, e.balances, e.block, Due(s, next));
    case Live(_, Streaming(next), view) =>
      Associates(Carried(s.sent[next..]), Unsent(s.open), diff);
      Associates(view, Due(s, next), diff);
      MergeOverlays(s.snapshot, e.balances, e.block, view + Due(s, next));
    case Live(_, Closed, _) =>
  }

  lemma UnsentAppend(open: seq<Window>, window: Window)
    ensures Unsent(open + [window]) == Unsent(open) + window.diff
  {
    assert (open + [window])[..|open|] == open;
  }

  lemma Neutral(changes: map<Address, nat>)
    ensures changes + map[] == changes && map[] + changes == changes
  {
  }

  lemma MergeExtendsUnsent(s: State, e: Event)
    requires WellFormed(s) && e.MergeResult? && CanMerge(s, e)
    ensures Unsent(AfterMerge(s, e).open) == Unsent(s.open) + Diff(s.snapshot, e.balances, e.block)
  {
    var diff := Diff(s.snapshot, e.balances, e.block);
    UnsentAppend(s.open, Window(e.task, diff));
    Neutral(Unsent(s.open));
  }

  lemma MergeKeepsInv(s: State, e: Event)
    requires Inv(s) && e.MergeResult? && CanMerge(s, e)
    ensures Inv(Step(s, e))
  {
    var t := AfterMerge(s, e);
    StepIsWellFormed(s, e);
    forall c | c in t.clients ensures ClientInv(t, t.clients[c]) {
      MergeKeepsClient(s, e, s.clients[c]);
    }
    MergeExtendsUnsent(s, e);
    MergeOverlays(s.snapshot, e.balances, e.block, Unsent(s.open));
  }

  lemma CarriedAppend(sent: seq<BalanceEvent>, next: nat, event: BalanceEvent)
    requires next <= |sent|
    ensures Carried((sent + [event])[next..]) == Carried(sent[next..]) + Payload(event)
  {
    var tail := (sent + [event])[next..];
    assert tail[..|tail| - 1] == sent[next..];
  }

  lemma SendKeepsClient(s: State, t: State, event: BalanceEvent, client: Client)
    requires t.snapshot == s.snapshot && t.sent == s.sent + [event]
    requires Payload(event) + Unsent(t.open) == Unsent(s.open)
    requires ClientInv(s, client)
    ensures ClientInv(t, client)
  {
    if client.Attaching? || client.stream.Streaming? {
      var next := if client.Attaching? then client.next else client.stream.next;
      CarriedAppend(s.sent, next, event);
      Associates(Carried(s.sent[next..]), Payload(event), Unsent(t.open));
      assert Due(t, next) == Due(s, next);
    }
  }

  lemma BroadcastKeepsInv(s: State, e: Event)
    requires Inv(s) && e.Broadcast? && InOrder(s, e)
    ensures Inv(Step(s, e))
  {
    var t := Step(s, e);
    StepIsWellFormed(s, e);
    if WindowOf(s.open, e.task).Some? {
      var i := WindowOf(s.open, e.task).value;
      UnsentCommutes(s.open, i);
      forall c | c in t.clients ensures ClientInv(t, t.clients[c]) {
        SendKeepsClient(s, t, BalanceUpdate(s.open[i].diff), s.clients[c]);
      }
      forall token | token in t.snapshot && token in Unsent(t.open)
        ensures Unsent(t.open)[token] == t.snapshot[token].amount
      {
        assert Unsent(s.open)[token] == Unsent(t.open)[token];
      }
    }
  }

  lemma ErrorKeepsInv(s: State, code: nat)
    requires Inv(s)
    ensures Inv(Step(s, SendError(code)))
  {
    var t := Step(s, SendError(code));
    StepIsWellFormed(s, SendError(code));
    assert map[] + Unsent(s.open) == Unsent(s.open);
    forall c | c in t.clients ensures ClientInv(t, t.clients[c]) {
      SendKeepsClient(s, t, Error(code), s.clients[c]);
    }
  }

  lemma ReplaceKeepsInv(s: State, tokens: set<Address>)
    requires Inv(s)
    ensures Inv(Step(s, Replace(tokens)))
  {
    var t := Step(s, Replace(tokens));
    StepIsWellFormed(s, Replace(tokens));
    forall c | c in t.clients ensures ClientInv(t, t.clients[c]) {
      assert ClientInv(s, s.clients[c]);
    }
  }

  /** Receiving moves the head of what is due into the view. */
  lemma ReceiveShifts(s: State, next: nat, view: map<Address, nat>)
    requires next < |s.sent|
    ensures view + Due(s, next) == (view + Payload(s.sent[next])) + Due(s, next + 1)
  {
    var head, rest := Payload(s.sent[next]), Carried(s.sent[next + 1..]);
    CarriedHead(s.sent[next..]);
    assert s.sent[next..][1..] == s.sent[next + 1..];
    Associates(head, rest, Unsent(s.open));
    Associates(view, head, Due(s, next + 1));
  }

  lemma ReceiveKeepsClient(s: State, since: nat, next: nat, view: map<Address, nat>, t: State)
    requires ClientInv(s, Live(since, Streaming(next), view)) && next < |s.sent|
    requires t == s.(clients := t.clients)
    ensures ClientInv(t, Live(since, Streaming(next + 1), view + Payload(s.sent[next])))
  {
    ReceiveShifts(s, next, view);
    assert Due(t, next + 1) == Due(s, next + 1);
  }

  lemma ReceiveKeepsInv(s: State, c: nat)
    requires Inv(s)
    ensures Inv(AfterReceive(s, c))
  {
    if c in s.clients && s.clients[c].Live? {
      match s.clients[c].stream
      case Streaming(next) => StreamingKeepsInv(s, c, next);
      case Closed => DetachKeepsInv(s, c);
    }
  }

  lemma StreamingKeepsInv(s: State, c: nat, next: nat)
    requires Inv(s) && c in s.clients && s.clients[c].Live? && s.clients[c].stream == Streaming(next)
    ensures Inv(AfterReceive(s, c))
  {
    var t := AfterReceive(s, c);
    assert ClientInv(s, s.clients[c]);
    if next < |s.sent| && !Lagged(next, |s.sent|) {
      ReceiveKeepsClient(s, s.clients[c].since, next, s.clients[c].view, t);
    }
    if t != s {
      OthersKeepInv(s, t, c);
    }
  }

  lemma AttachKeepsInv(s: State, c: nat)
    requires Inv(s)
    ensures Inv(Step(s, AttachClient(c)))
  {
    var t := Step(s, AttachClient(c));
    if c !in s.clients {
      assert s.sent[|s.sent|..] == [];
      Neutral(Unsent(s.open));
      assert Due(t, |s.sent|) == Unsent(s.open);
      OthersKeepInv(s, t, c);
    }
  }

  lemma SeedKeepsInv(s: State, c: nat)
    requires Inv(s)
    ensures Inv(Step(s, SeedClient(c)))
  {
    var t := Step(s, SeedClient(c));
    if c in s.clients && s.clients[c].Attaching? {
      assert ClientInv(s, s.clients[c]);
      assert Due(t, s.clients[c].next) == Due(s, s.clients[c].next);
      OthersKeepInv(s, t, c);
    }
  }

  /** Changing one client leaves the others as they were. */
  lemma OthersKeepInv(s: State, t: State, c: nat)
    requires Inv(s) && t == s.(clients := t.clients)
    requires forall d :: d in t.clients && d != c ==> d in s.clients && t.clients[d] == s.clients[d]
    ensures forall d :: d in t.clients && d != c ==> ClientInv(t, t.clients[d])
  {
    forall d | d in t.clients && d != c ensures ClientInv(t, t.clients[d]) {
      assert ClientInv(s, s.clients[d]);
    }
  }

  lemma DetachKeepsInv(s: State, c: nat)
    requires Inv(s)
    ensures Inv(s.(clients := s.clients - {c}))
  {
    OthersKeepInv(s, s.(clients := s.clients - {c}), c);
  }

  lemma CheckKeepsInv(s: State, tokens: set<Address>)
    requires Inv(s)
    ensures Inv(Step(s, CheckWatched(tokens)))
  {
    var t := Step(s, CheckWatched(tokens));
    forall c | c in t.clients ensures ClientInv(t, t.clients[c]) {
      assert ClientInv(s, s.clients[c]);
    }
  }

  lemma StepKeepsInv(s: State, e: Event)
    requires Inv(s) && InOrder(s, e)
    ensures Inv(Step(s, e))
  {
    match e
    case MergeResult(_, _, _, _) => if CanMerge(s, e) { MergeKeepsInv(s, e); }
    case Broadcast(_) => BroadcastKeepsInv(s, e);
    case SendError(code) => ErrorKeepsInv(s, code);
    case Replace(tokens) => ReplaceKeepsInv(s, tokens);
    case Receive(c) => ReceiveKeepsInv(s, c);
    case AttachClient(c) => AttachKeepsInv(s, c);
    case SeedClient(c) => SeedKeepsInv(s, c);
    case Detach(c) => DetachKeepsInv(s, c);
    case CheckWatched(tokens) => CheckKeepsInv(s, tokens);
  }

  /** Every broadcast of the run was in order. */
  ghost predicate AllInOrder(tokens: set<Address>, events: seq<Event>) {
    forall i :: 0 <= i < |events| ==> InOrder(Run(tokens, events[..i]), events[i])
  }

  lemma {:induction false} RunKeepsInv(tokens: set<Address>, events: seq<Event>)
    requires AllInOrder(tokens, events)
    ensures Inv(Run(tokens, events))
  {
    if events != [] {
      var earlier := events[..|events| - 1];
      forall i | 0 <= i < |earlier| ensures InOrder(Run(tokens, earlier[..i]), earlier[i]) {
        assert earlier[..i] == events[..i] && earlier[i] == events[i];
      }
      RunKeepsInv(tokens, earlier);
      assert events[|events| - 1] == events[|earlier|];
      StepKeepsInv(Run(tokens, earlier), events[|events| - 1]);
    }
  }

  /**
   Replica agreement. In every interleaving of the two publishers, list replacements,
   errors and any number of clients, as long as no broadcast overtakes an older one on a
   shared token: once no diff is on its way, a client that was not closed and has received
   everything sent holds exactly the server's amount for every token in the snapshot.
   */
  lemma ReplicasAgree(tokens: set<Address>, events: seq<Event>, c: nat)
    requires AllInOrder(tokens, events)
    requires var s := Run(tokens, events);
             s.open == [] && c in s.clients && s.clients[c].Live? && s.clients[c].stream == Streaming(|s.sent|)
    ensures var s := Run(tokens, events); Holds(s.snapshot, s.clients[c].view)
  {
    var s := Run(tokens, events);
    RunKeepsInv(tokens, events);
    CaughtUp(s, s.clients[c].view);
  }

  lemma CaughtUp(s: State, view: map<Address, nat>)
    requires s.open == [] && Holds(s.snapshot, view + Due(s, |s.sent|))
    ensures Holds(s.snapshot, view)
  {
    assert s.sent[|s.sent|..] == [];
    assert Carried([]) + Unsent([]) == map[];
    assert view + map[] == view;
  }

  /** No merge happens while another task's diff is still on its way. */
  ghost predicate NonOverlapping(tokens: set<Address>, events: seq<Event>) {
    forall i :: 0 <= i < |events| && events[i].MergeResult? ==> Run(tokens, events[..i]).open == []
  }

  lemma StepWindows(s: State, e: Event)
    requires WellFormed(s) && |s.open| <= 1 && (e.MergeResult? ==> s.open == [])
    ensures |Step(s, e).open| <= 1
  {
  }

  lemma {:induction false} OneWindow(tokens: set<Address>, events: seq<Event>)
    requires NonOverlapping(tokens, events)
    ensures |Run(tokens, events).open| <= 1
  {
    if events != [] {
      var earlier, last := events[..|events| - 1], events[|events| - 1];
      forall i | 0 <= i < |earlier| && earlier[i].MergeResult? ensures Run(tokens, earlier[..i]).open == [] {
        assert earlier[..i] == events[..i] && earlier[i] == events[i];
      }
      OneWindow(tokens, earlier);
      assert events == earlier + [last] && events[..|earlier|] == earlier;
      RunAppend(tokens, earlier, last);
      StepWindows(Run(tokens, earlier), last);
    }
  }

  /** Windows that never overlap are a special case of broadcasts in order. */
  lemma NonOverlappingIsInOrder(tokens: set<Address>, events: seq<Event>)
    requires NonOverlapping(tokens, events)
    ensures AllInOrder(tokens, events)
  {
    forall i | 0 <= i < |events| ensures InOrder(Run(tokens, events[..i]), events[i]) {
      var prefix := events[..i];
      forall j | 0 <= j < |prefix| && prefix[j].MergeResult? ensures Run(tokens, prefix[..j]).open == [] {
        assert prefix[..j] == events[..j] && prefix[j] == events[j];
      }
      OneWindow(tokens, prefix);
    }
  }

  /** Both windows broadcast, younger first, and a client receiving both. */
  function Overtake(s: State, c: nat): seq<Event>
    requires |s.open| == 2
  {
    [Broadcast(s.open[1].task), Broadcast(s.open[0].task), Receive(c), Receive(c)]
  }

  lemma BroadcastYounger(s: State)
    requires WellFormed(s) && |s.open| == 2 && s.open[0].task != s.open[1].task
    ensures Step(s, Broadcast(s.open[1].task))
         == s.(open := [s.open[0]], sent := s.sent + [BalanceUpdate(s.open[1].diff)])
  {
    assert s.open[..1] + s.open[2..] == [s.open[0]];
  }

  lemma BroadcastOnly(s: State)
    requires WellFormed(s) && |s.open| == 1
    ensures Step(s, Broadcast(s.open[0].task)) == s.(open := [], sent := s.sent + [BalanceUpdate(s.open[0].diff)])
  {
    assert s.open[..0] + s.open[1..] == [];
  }

  /**
   What receiving does to a live client, exactly: one more than the capacity behind is closed
   with its view as it was, one within reach overlays the next event, one up to date waits.
   */
  lemma ReceiveIsExact(s: State, c: nat)
    requires WellFormed(s) && c in s.clients && s.clients[c].Live? && s.clients[c].stream.Streaming?
    ensures var client, next := s.clients[c], s.clients[c].stream.next;
            Step(s, Receive(c)) ==
              if |s.sent| > next + BROADCAST_CHANNEL_CAPACITY then
                s.(clients := s.clients[c := client.(stream := Closed)])
              else if next < |s.sent| then
                s.(clients := s.clients[c := client.(stream := Streaming(next + 1),
                                                     view := client.view + Payload(s.sent[next]))])
              else s
  {
    Neutral(s.clients[c].view);
  }

  lemma ReceiveOne(s: State, c: nat, since: nat, next: nat, view: map<Address, nat>)
    requires WellFormed(s) && c in s.clients && s.clients[c] == Live(since, Streaming(next), view)
    requires next < |s.sent| <= next + BROADCAST_CHANNEL_CAPACITY
    ensures Step(s, Receive(c))
      == s.(clients := s.clients[c := Live(since, Streaming(next + 1), view + Payload(s.sent[next]))])
  {
  }

  lemma OvertakeSteps(s: State, c: nat)
    requires WellFormed(s) && |s.open| == 2 && s.open[0].task != s.open[1].task
    requires c in s.clients && s.clients[c].Live? && s.clients[c].stream == Streaming(|s.sent|)
    ensures var t := Continue(s, Overtake(s, c));
            && t.open == [] && t.snapshot == s.snapshot && |t.sent| == |s.sent| + 2 && c in t.clients
            && t.clients[c] == Live(s.clients[c].since, Streaming(|s.sent| + 2),
                                    s.clients[c].view + s.open[1].diff + s.open[0].diff)
  {
    var older, younger := s.open[0], s.open[1];
    var p1 := [] + [Broadcast(younger.task)];
    var p2 := p1 + [Broadcast(older.task)];
    var p3 := p2 + [Receive(c)];
    assert Overtake(s, c) == p3 + [Receive(c)];
    ContinueAppend(s, [], Broadcast(younger.task));
    BroadcastYounger(s);
    ContinueAppend(s, p1, Broadcast(older.task));
    BroadcastOnly(Continue(s, p1));
    ContinueAppend(s, p2, Receive(c));
    var s2 := Continue(s, p2);
    assert s2.sent == s.sent + [BalanceUpdate(younger.diff), BalanceUpdate(older.diff)];
    ReceiveOne(s2, c, s.clients[c].since, |s.sent|, s.clients[c].view);
    ContinueAppend(s, p3, Receive(c));
    ReceiveOne(Continue(s, p3), c, s.clients[c].since, |s.sent| + 1, s.clients[c].view + younger.diff);
  }

  /**
   What happens when the younger of two open windows is broadcast first, exactly: a client
   that receives both ends in agreement if and only if the two diffs carry the same amount
   for every stored token they share.
   */
  lemma OvertakingIsExact(s: State, c: nat)
    requires Inv(s) && |s.open| == 2 && s.open[0].task != s.open[1].task
    requires c in s.clients && s.clients[c].Live? && s.clients[c].stream == Streaming(|s.sent|)
    ensures var older, younger := s.open[0].diff, s.open[1].diff;
            var t := Continue(s, Overtake(s, c));
            && t.open == [] && c in t.clients && t.clients[c].Live? && t.clients[c].stream == Streaming(|t.sent|)
            && (Holds(t.snapshot, t.clients[c].view) <==>
                  forall token :: token in s.snapshot && token in older && token in younger ==>
                    older[token] == younger[token])
  {
    OvertakeSteps(s, c);
    DueIsBoth(s);
    assert ClientInv(s, s.clients[c]);
    SwappedOverlays(s.snapshot, s.clients[c].view, s.open[0].diff, s.open[1].diff);
  }

  lemma DueIsBoth(s: State)
    requires |s.open| == 2
    ensures Due(s, |s.sent|) == s.open[0].diff + s.open[1].diff
  {
    assert s.sent[|s.sent|..] == [];
    assert s.open[..1][..0] == [] && s.open[..1][0] == s.open[0];
    assert Unsent(s.open[..1]) == map[] + s.open[0].diff;
    assert Carried([]) + Unsent(s.open) == Unsent(s.open);
  }

  lemma SwappedOverlays(snapshot: Snapshot, view: map<Address, nat>, older: map<Address, nat>,
                        younger: map<Address, nat>)
    requires Holds(snapshot, view + (older + younger))
    ensures Holds(snapshot, view + younger + older) <==>
              forall token :: token in snapshot && token in older && token in younger ==> older[token] == younger[token]
  {
    var right, swapped := view + (older + younger), view + younger + older;
    forall token | token in snapshot
      ensures right[token] == snapshot[token].amount
      ensures token in swapped
      ensures token in older && token in younger ==> right[token] == younger[token] && swapped[token] == older[token]
      ensures !(token in older && token in younger) ==> swapped[token] == right[token]
    {
    }
    if Holds(snapshot, swapped) {
      forall token | token in snapshot && token in older && token in younger ensures older[token] == younger[token] {
        assert swapped[token] == snapshot[token].amount;
      }
    }
  }

  /** A session with one attached client, two diffs on one token merged in turn and neither broadcast. */
  function TwoOpen(token: Address): State {
    State.State([{token}], {(token, 0)}, map[token := Balance(7, 11)], map[token := 0], [],
                [Window(SnapshotUpdater, map[token := 5]), Window(QueueReceiver, map[token := 7])],
                [map[token := 5], map[token := 7]], map[0 := Live(0, Streaming(0), map[])])
  }

  /** A session whose one token was just read under its first watched set, with one client attached. */
  function Ready(token: Address): State {
    State.State([{token}], {(token, 0)}, map[], map[], [], [], [], map[0 := Live(0, Streaming(0), map[])])
  }

  lemma ReadyIsReachable(token: Address)
    ensures Run({token}, Joining(token)) == Ready(token)
  {
    var p1 := [] + [CheckWatched({token})];
    var p2 := p1 + [AttachClient(0)];
    assert Joining(token) == p2 + [SeedClient(0)];
    RunAppend({token}, [], CheckWatched({token}));
    RunAppend({token}, p1, AttachClient(0));
    RunAppend({token}, p2, SeedClient(0));
    var s1 := Run({token}, p1);
    assert token in {token} * Init({token}).Watched();
    assert s1.tickets == {(token, 0)};
  }

  function OneOpen(token: Address): State {
    Ready(token).(snapshot := map[token := Balance(5, 10)], origin := map[token := 0],
                  open := [Window(SnapshotUpdater, map[token := 5])], merged := [map[token := 5]])
  }

  lemma MergeReaches(tokens: set<Address>, events: seq<Event>, s: State, e: Event, token: Address, t: State)
    requires Run(tokens, events) == s
    requires e.MergeResult? && e.balances.Keys == {token} && e.under == map[token := 0]
    requires (token, 0) in s.tickets && forall i :: 0 <= i < |s.open| ==> s.open[i].task != e.task
    requires token in s.snapshot ==> s.snapshot[token].block < e.block && s.snapshot[token].amount != e.balances[token]
    requires s.snapshot.Keys <= {token}
    requires t == s.(snapshot := map[token := Balance(e.balances[token], e.block)], origin := map[token := 0],
                     open := s.open + [Window(e.task, e.balances)], merged := s.merged + [e.balances])
    ensures Run(tokens, events + [e]) == t
  {
    RunAppend(tokens, events, e);
    assert CanMerge(s, e);
    FreshMerge(s.snapshot, e.balances, e.block, token);
    assert token in e.balances;
  }

  lemma TwoOpenIsReachable(token: Address)
    ensures Run({token}, Opening(token)) == TwoOpen(token)
  {
    ReadyIsReachable(token);
    MergeReaches({token}, Joining(token), Ready(token), FirstMerge(token), token, OneOpen(token));
    MergeReaches({token}, Joining(token) + [FirstMerge(token)], OneOpen(token), SecondMerge(token), token,
                 TwoOpen(token));
  }

  lemma FreshMerge(snapshot: Snapshot, balances: map<Address, nat>, block: BlockNumber, token: Address)
    requires snapshot.Keys <= {token} && balances.Keys == {token}
    requires token in snapshot ==> snapshot[token].block < block && snapshot[token].amount != balances[token]
    ensures Diff(snapshot, balances, block) == balances
    ensures Merge(snapshot, balances, block) == map[token := Balance(balances[token], block)]
  {
  }

  lemma OvertakenRun(tokens: set<Address>, events: seq<Event>, s: State, c: nat)
    requires Run(tokens, events) == s && |s.open| == 2 && s.open[0].task != s.open[1].task
    requires c in s.clients && s.clients[c].Live? && s.clients[c].stream == Streaming(|s.sent|)
    ensures var t := Run(tokens, events + Overtake(s, c));
            && t.open == [] && t.snapshot == s.snapshot && c in t.clients
            && t.clients[c] == Live(s.clients[c].since, Streaming(|t.sent|),
                                    s.clients[c].view + s.open[1].diff + s.open[0].diff)
  {
    ContinueConcat(Init(tokens), events, Overtake(s, c));
    OvertakeSteps(s, c);
  }

  /** From a real start: two overlapping windows on one token leave a client stale although it received everything. */
  lemma OverlapBreaksAgreement(token: Address)
    ensures var s := Run({token}, OverlapRun(token));
            && s.open == [] && 0 in s.clients && s.clients[0] == Live(0, Streaming(|s.sent|), map[token := 5])
            && s.snapshot == map[token := Balance(7, 11)]
  {
    TwoOpenIsReachable(token);
    OvertakenRun({token}, Opening(token), TwoOpen(token), 0);
    LastWins(token);
  }

  lemma LastWins(token: Address)
    ensures map[] + map[token := 7] + map[token := 5] == map[token := 5 as nat]
  {
  }

  function Joining(token: Address): seq<Event> {
    [CheckWatched({token}), AttachClient(0), SeedClient(0)]
  }

  function FirstMerge(token: Address): Event {
    MergeResult(SnapshotUpdater, map[token := 5], 10, map[token := 0])
  }

  function SecondMerge(token: Address): Event {
    MergeResult(QueueReceiver, map[token := 7], 11, map[token := 0])
  }

  function Opening(token: Address): seq<Event> {
    Joining(token) + [FirstMerge(token)] + [SecondMerge(token)]
  }

  /** After the opening, the queue receiver broadcasts before the snapshot updater. */
  function OverlapRun(token: Address): seq<Event> {
    Opening(token) + Overtake(TwoOpen(token), 0)
  }

  lemma {:induction false} ContinueConcat(s: State, events: seq<Event>, later: seq<Event>)
    requires WellFormed(s)
    ensures Continue(s, events + later) == Continue(Continue(s, events), later)
  {
    if later == [] {
      assert events + later == events;
    } else {
      var front, last := later[..|later| - 1], later[|later| - 1];
      assert events + later == (events + front) + [last];
      ContinueConcat(s, events, front);
      ContinueAppend(s, events + front, last);
    }
  }
}
