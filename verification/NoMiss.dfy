/**
 From a fetched log to a stored balance: the path of a transfer through fan-out, routing to
 every session of its owner, each session's refresh queue and the merge of its results. Every
 hop is a bounded channel, sessions come and go, and any task may run between two steps.
 */
module NoMiss {
  import opened Domain
  import opened S = Subscription
  import opened BalanceRefreshQueue

  // ----- from a log to transfer events -----

  const ERC20_TRANSFER_TOPICS_LEN := 3

  datatype Transfer = Transfer(owner: Address, token: Address, block: Option<BlockNumber>)

  const ADDRESS_RANGE := 0x1_0000_0000_0000_0000_0000_0000_0000_0000_0000_0000

  /** The low 20 bytes of a topic word. */
  function FromWord(word: nat): Address {
    word % ADDRESS_RANGE
  }

  /** `on_erc20_log`: sender and receiver, unless the topics are not those of an ERC-20 transfer. */
  function Erc20Transfers(log: Log): seq<Transfer> {
    if |log.topics| != ERC20_TRANSFER_TOPICS_LEN then []
    else
      [Transfer(FromWord(log.topics[1]), log.address, log.block),
       Transfer(FromWord(log.topics[2]), log.address, log.block)]
  }

  /** The wrapped-token contract and the signatures of its two events. */
  datatype Weth9 = Weth9(contract: Address, deposit: nat, withdrawal: nat)

  /** `on_weth9_log`: the owner of a deposit or withdrawal of that contract. */
  function Weth9Transfers(weth9: Weth9, log: Log): seq<Transfer> {
    if log.address != weth9.contract || |log.topics| < 2 then []
    else if log.topics[0] != weth9.deposit && log.topics[0] != weth9.withdrawal then []
    else [Transfer(FromWord(log.topics[1]), log.address, log.block)]
  }

  // ----- one session -----

  const TRANSFER_CHANNEL_CAP := 256
  const QUEUE_CHANNEL_CAP := 64

  /** A transfer looked up for this session, and the watched set the session had when it was its turn. */
  datatype Checked = Checked(transfer: Transfer, watched: set<Address>)

  /** The worker's result for a batch: what was answered and the block it was read at. */
  datatype Answer = Answer(requests: seq<Request>, balances: map<Address, nat>, readAt: BlockNumber)
                  | Broken(requests: seq<Request>)

  /** A request whose batch has been merged, with the answer to the batch. */
  datatype Done = Done(request: Request, balances: map<Address, nat>, readAt: BlockNumber, evicted: bool) {
    function Fate(): Fate {
      if request.token !in balances then SubcallFailed else if evicted then Evicted else Stored
    }
  }

  datatype Fate =
    | Stored           // answered and merged
    | SubcallFailed    // the batch's answer left the token out
    | Evicted          // merged, and dropped by a later list replacement

  datatype Pipe = Pipe(
    owner: Address,
    watched: set<Address>,
    snapshot: Snapshot,
    closed: bool,                 // removed or cancelled
    since: nat,                   // how many transfers the router had taken when the session was registered
    checked: seq<Checked>,        // history: every transfer looked up since
    routing: seq<Request>,        // routed here, waiting for room in the queue
    inbound: seq<Request>,        // router to worker
    batch: seq<Request>,          // what the worker has gathered
    reading: Option<BlockId>,     // the block its read was sent for, once the batch is complete
    outbound: seq<Answer>,        // worker to result receiver
    done: seq<Done>               // history: every request merged
  )

  /** What a session's own tasks do. */
  datatype Action =
    | Enqueue
    | Gather
    | Dispatch(id: BlockId)
    | Fetch(balances: map<Address, nat>, readAt: BlockNumber)
    | FetchFails
    | Merged
    | OtherMerge(balances: map<Address, nat>, block: BlockNumber)
    | Replace(tokens: set<Address>)
    | Close

  function RequestOf(transfer: Transfer): Request {
    Request(transfer.token, transfer.block)
  }

  /** The lookup's verdict. */
  predicate Watching(owner: Address, checked: Checked) {
    checked.transfer.owner == owner && checked.transfer.token in checked.watched
  }

  /** What a session was looked up for, and what the router has for its queue. */
  function Look(p: Pipe, transfer: Transfer): Pipe {
    var checked := Checked(transfer, p.watched);
    p.(checked := p.checked + [checked],
       routing := if Watching(p.owner, checked) then p.routing + [RequestOf(transfer)] else p.routing)
  }

  function Settled(requests: seq<Request>, balances: map<Address, nat>, readAt: BlockNumber): seq<Done> {
    seq(|requests|, i requires 0 <= i < |requests| => Done(requests[i], balances, readAt, false))
  }

  /** The stored requests for tokens outside the new list are evicted. */
  function AfterEviction(done: seq<Done>, tokens: set<Address>): seq<Done> {
    seq(|done|, i requires 0 <= i < |done| =>
      if done[i].Fate().Stored? && done[i].request.token !in tokens then done[i].(evicted := true) else done[i])
  }

  function AfterMerged(p: Pipe): Pipe
    requires p.outbound != []
  {
    match p.outbound[0]
    case Answer(requests, balances, readAt) =>
      p.(outbound := p.outbound[1..], snapshot := Merge(p.snapshot, balances, readAt),
         done := p.done + Settled(requests, balances, readAt))
    case Broken(_) => p.(closed := true)
  }

  /** The node answers no token it was not asked for, at a block that is not behind the batch's events. */
  ghost predicate CanAnswer(p: Pipe, e: Action)
    requires e.Fetch?
  {
    && p.reading.Some? && |p.outbound| < QUEUE_CHANNEL_CAP
    && Honest(p.batch, p.reading.value, e.readAt)
    && e.balances.Keys <= CoalesceByToken(p.batch).Keys
  }

  /** One step of a session; an action that is blocked or not possible changes nothing. */
  ghost function Act(p: Pipe, e: Action): Pipe {
    match e
    case Enqueue =>
      if p.routing != [] && |p.inbound| < QUEUE_CHANNEL_CAP then
        p.(inbound := p.inbound + [p.routing[0]], routing := p.routing[1..])
      else p
    case Gather =>
      if p.reading.None? && p.inbound != [] && |p.batch| < MAX_QUEUE_SIZE then
        p.(batch := p.batch + [p.inbound[0]], inbound := p.inbound[1..])
      else p
    case Dispatch(id) =>
      if p.reading.None? && p.batch != [] && Resolves(CoalesceByToken(p.batch), id) then p.(reading := Some(id)) else p
    case Fetch(balances, readAt) =>
      if CanAnswer(p, e) then
        p.(outbound := p.outbound + [Answer(p.batch, balances, readAt)], batch := [], reading := None)
      else p
    case FetchFails =>
      if p.reading.Some? && |p.outbound| < QUEUE_CHANNEL_CAP then
        p.(outbound := p.outbound + [Broken(p.batch)], batch := [], reading := None)
      else p
    case Merged => if p.outbound != [] then AfterMerged(p) else p
    case OtherMerge(balances, block) => p.(snapshot := Merge(p.snapshot, balances, block))
    case Replace(tokens) =>
      if tokens == p.watched then p
      else p.(watched := tokens, snapshot := Evict(p.snapshot, tokens), done := AfterEviction(p.done, tokens))
    case Close => p.(closed := true)
  }

  // ----- what a session keeps -----

  /** What the router decided to send to this session, in order. */
  function Routed(owner: Address, checked: seq<Checked>): seq<Request> {
    if checked == [] then []
    else
      var last := checked[|checked| - 1];
      Routed(owner, checked[..|checked| - 1]) + if Watching(owner, last) then [RequestOf(last.transfer)] else []
  }

  function TransfersOf(checked: seq<Checked>): (transfers: seq<Transfer>)
    ensures |transfers| == |checked| && forall i :: 0 <= i < |checked| ==> transfers[i] == checked[i].transfer
  {
    seq(|checked|, i requires 0 <= i < |checked| => checked[i].transfer)
  }

  function RequestsOf(done: seq<Done>): (requests: seq<Request>)
    ensures |requests| == |done| && forall i :: 0 <= i < |done| ==> requests[i] == done[i].request
  {
    seq(|done|, i requires 0 <= i < |done| => done[i].request)
  }

  function Carried(outbound: seq<Answer>): seq<Request> {
    if outbound == [] then [] else Carried(outbound[..|outbound| - 1]) + outbound[|outbound| - 1].requests
  }

  /** Everything routed to the session and not merged yet, oldest first. */
  function InFlight(p: Pipe): seq<Request> {
    Carried(p.outbound) + p.batch + p.inbound + p.routing
  }

  ghost predicate NoOlder(requests: seq<Request>, readAt: BlockNumber) {
    forall request :: request in requests && request.block.Some? ==> request.block.value <= readAt
  }

  ghost predicate FreshAnswer(answer: Answer) {
    answer.Answer? ==> NoOlder(answer.requests, answer.readAt)
  }

  /** Read no earlier than the event; and if stored, stored at that block or a later one. */
  ghost predicate UpToDate(snapshot: Snapshot, done: Done) {
    && (done.request.block.Some? ==> done.request.block.value <= done.readAt)
    && (done.Fate().Stored? ==> done.request.token in snapshot && done.readAt <= snapshot[done.request.token].block)
  }

  ghost predicate AllUpToDate(p: Pipe) {
    forall i :: 0 <= i < |p.done| ==> UpToDate(p.snapshot, p.done[i])
  }

  ghost predicate Conserved(p: Pipe) {
    Routed(p.owner, p.checked) == RequestsOf(p.done) + InFlight(p)
  }

  ghost predicate PipeInv(p: Pipe) {
    && Conserved(p) && AllUpToDate(p)
    && (p.reading.Some? ==> p.batch != [] && Resolves(CoalesceByToken(p.batch), p.reading.value))
    && (forall i :: 0 <= i < |p.outbound| ==> FreshAnswer(p.outbound[i]))
  }

  lemma {:induction false} CarriedCons(first: Answer, rest: seq<Answer>)
    ensures Carried([first] + rest) == first.requests + Carried(rest)
  {
    if rest == [] {
      assert [first] + rest == [] + [first];
      CarriedAppend([], first);
    } else {
      var front, last := rest[..|rest| - 1], rest[|rest| - 1];
      assert [first] + rest == ([first] + front) + [last] && rest == front + [last];
      CarriedCons(first, front);
      CarriedAppend([first] + front, last);
      CarriedAppend(front, last);
    }
  }

  lemma CarriedAppend(outbound: seq<Answer>, answer: Answer)
    ensures Carried(outbound + [answer]) == Carried(outbound) + answer.requests
  {
    assert (outbound + [answer])[..|outbound|] == outbound;
  }

  lemma LookKeepsInv(p: Pipe, transfer: Transfer)
    requires PipeInv(p)
    ensures PipeInv(Look(p, transfer))
  {
    var q := Look(p, transfer);
    assert q.checked[..|p.checked|] == p.checked;
    assert InFlight(q) == InFlight(p) + q.routing[|p.routing|..];
  }

  /** Moving a request from the head of one hop to the tail of the next changes nothing in flight. */
  lemma HopKeepsOrder(tail: seq<Request>, hop: seq<Request>)
    requires hop != []
    ensures (tail + [hop[0]]) + hop[1..] == tail + hop
  {
  }

  lemma Regroup(a: seq<Request>, b: seq<Request>, c: seq<Request>, d: seq<Request>)
    ensures a + b + c + d == a + (b + c) + d == (a + b) + (c + d)
  {
  }

  lemma EnqueueKeepsInv(p: Pipe)
    requires PipeInv(p)
    ensures PipeInv(Act(p, Enqueue))
  {
    var q := Act(p, Enqueue);
    if q != p {
      assert InFlight(q) == InFlight(p) by {
        HopKeepsOrder(p.inbound, p.routing);
        Regroup(Carried(q.outbound), q.batch, q.inbound, q.routing);
        Regroup(Carried(p.outbound), p.batch, p.inbound, p.routing);
      }
    }
  }

  lemma GatherKeepsInv(p: Pipe)
    requires PipeInv(p)
    ensures PipeInv(Act(p, Gather))
  {
    var q := Act(p, Gather);
    if q != p {
      assert InFlight(q) == InFlight(p) by {
        HopKeepsOrder(p.batch, p.inbound);
        Regroup(Carried(q.outbound), q.batch, q.inbound, q.routing);
        Regroup(Carried(p.outbound), p.batch, p.inbound, p.routing);
      }
    }
  }

  /** A batch that has been read, or failed, is still in flight as a result. */
  lemma AnswerKeepsInv(p: Pipe, answer: Answer)
    requires PipeInv(p) && answer.requests == p.batch && FreshAnswer(answer)
    ensures PipeInv(p.(outbound := p.outbound + [answer], batch := [], reading := None))
  {
    var q := p.(outbound := p.outbound + [answer], batch := [], reading := None);
    CarriedAppend(p.outbound, answer);
    assert InFlight(q) == InFlight(p);
  }

  lemma FetchKeepsInv(p: Pipe, e: Action)
    requires PipeInv(p) && e.Fetch?
    ensures PipeInv(Act(p, e))
  {
    if CanAnswer(p, e) {
      forall request | request in p.batch && request.block.Some? ensures request.block.value <= e.readAt {
        ChosenBlockIsFresh(p.batch, p.reading.value, e.readAt, request);
      }
      AnswerKeepsInv(p, Answer(p.batch, e.balances, e.readAt));
    }
  }

  /** Merging can only move stored entries to later blocks. */
  lemma MergeKeepsUpToDate(p: Pipe, balances: map<Address, nat>, block: BlockNumber)
    requires AllUpToDate(p)
    ensures forall i :: 0 <= i < |p.done| ==> UpToDate(Merge(p.snapshot, balances, block), p.done[i])
  {
    forall i | 0 <= i < |p.done| ensures UpToDate(Merge(p.snapshot, balances, block), p.done[i]) {
      assert UpToDate(p.snapshot, p.done[i]);
    }
  }

  lemma MergedIsUpToDate(snapshot: Snapshot, requests: seq<Request>, balances: map<Address, nat>, readAt: BlockNumber)
    requires NoOlder(requests, readAt)
    ensures forall done :: done in Settled(requests, balances, readAt) ==>
      UpToDate(Merge(snapshot, balances, readAt), done)
  {
    forall done | done in Settled(requests, balances, readAt)
      ensures UpToDate(Merge(snapshot, balances, readAt), done) {
      assert done.request in requests;
    }
  }

  lemma InFlightHead(p: Pipe)
    requires p.outbound != []
    ensures InFlight(p) == p.outbound[0].requests + InFlight(p.(outbound := p.outbound[1..]))
  {
    assert p.outbound == [p.outbound[0]] + p.outbound[1..];
    CarriedCons(p.outbound[0], p.outbound[1..]);
    FirstOfFive(p.outbound[0].requests, Carried(p.outbound[1..]), p.batch, p.inbound, p.routing);
  }

  lemma FirstOfFive(a: seq<Request>, b: seq<Request>, c: seq<Request>, d: seq<Request>, e: seq<Request>)
    ensures (a + b) + c + d + e == a + (b + c + d + e)
  {
  }

  lemma MergedConserves(p: Pipe)
    requires Conserved(p) && p.outbound != [] && p.outbound[0].Answer?
    ensures Conserved(AfterMerged(p))
  {
    var q, requests := AfterMerged(p), p.outbound[0].requests;
    InFlightHead(p);
    assert InFlight(q) == InFlight(p.(outbound := p.outbound[1..]));
    assert RequestsOf(q.done) == RequestsOf(p.done) + requests;
    assert RequestsOf(p.done) + (requests + InFlight(q)) == (RequestsOf(p.done) + requests) + InFlight(q);
  }

  lemma MergedKeepsInv(p: Pipe)
    requires PipeInv(p) && p.outbound != [] && p.outbound[0].Answer?
    ensures PipeInv(AfterMerged(p))
  {
    var q, answer := AfterMerged(p), p.outbound[0];
    var settled := Settled(answer.requests, answer.balances, answer.readAt);
    MergedConserves(p);
    assert FreshAnswer(answer);
    MergeKeepsUpToDate(p, answer.balances, answer.readAt);
    MergedIsUpToDate(p.snapshot, answer.requests, answer.balances, answer.readAt);
    forall i | 0 <= i < |q.done| ensures UpToDate(q.snapshot, q.done[i]) {
      if i >= |p.done| {
        assert q.done[i] == settled[i - |p.done|];
      }
    }
  }

  lemma ReplaceKeepsInv(p: Pipe, tokens: set<Address>)
    requires PipeInv(p)
    ensures PipeInv(Act(p, Replace(tokens)))
  {
    var q := Act(p, Replace(tokens));
    assert RequestsOf(q.done) == RequestsOf(p.done) && InFlight(q) == InFlight(p);
    forall i | 0 <= i < |q.done| ensures UpToDate(q.snapshot, q.done[i]) {
      assert UpToDate(p.snapshot, p.done[i]);
    }
  }

  lemma ActKeepsInv(p: Pipe, e: Action)
    requires PipeInv(p)
    ensures !Act(p, e).closed ==> PipeInv(Act(p, e))
  {
    match e
    case Enqueue => EnqueueKeepsInv(p);
    case Gather => GatherKeepsInv(p);
    case Dispatch(_) =>
      assert InFlight(Act(p, e)) == InFlight(p);
    case Fetch(_, _) => FetchKeepsInv(p, e);
    case FetchFails =>
      if Act(p, e) != p {
        AnswerKeepsInv(p, Broken(p.batch));
      }
    case Merged =>
      if p.outbound != [] && p.outbound[0].Answer? {
        MergedKeepsInv(p);
      }
    case OtherMerge(balances, block) =>
      MergeKeepsUpToDate(p, balances, block);
      assert InFlight(Act(p, e)) == InFlight(p);
    case Replace(tokens) => ReplaceKeepsInv(p, tokens);
    case Close =>
  }

  /** A session's own steps do not touch what it was looked up for. */
  lemma ActKeepsLookups(p: Pipe, e: Action)
    ensures var q := Act(p, e); q.checked == p.checked && q.since == p.since && q.owner == p.owner
    ensures p.closed ==> Act(p, e).closed
  {
  }

  // ----- all sessions -----

  datatype State = State(
    produced: seq<Transfer>,      // history: every transfer event produced, by number
    outgoing: seq<nat>,           // produced by a handler, waiting for room in the channel
    channel: seq<nat>,            // dispatcher to router
    taken: seq<nat>,              // history: what the router has taken, the current one last
    looked: seq<Transfer>,        // history: the same, as transfers
    pending: set<nat>,            // candidates whose watched set the router has still to read
    sessions: map<nat, Pipe>      // every session ever registered
  )

  const INIT := State([], [], [], [], [], {}, map[])

  datatype Event =
    | HandleErc20(log: Log)
    | HandleWeth9(weth9: Weth9, log: Log)
    | Send(i: nat)
    | Lookup
    | Check(session: nat)
    | Local(session: nat, action: Action)
    | Register(session: nat, owner: Address, tokens: set<Address>)

  /** The transfer events a handled log gives rise to. */
  function Transfers(e: Event): seq<Transfer> {
    match e
    case HandleErc20(log) => Erc20Transfers(log)
    case HandleWeth9(weth9, log) => Weth9Transfers(weth9, log)
    case _ => []
  }

  function Produce(s: State, transfers: seq<Transfer>): State {
    s.(produced := s.produced + transfers,
       outgoing := s.outgoing + seq(|transfers|, j requires 0 <= j < |transfers| => |s.produced| + j))
  }

  /** The router is through with the previous transfer: every candidate checked, every request in its queue. */
  predicate RouterIsFree(s: State) {
    s.pending == {} && forall g :: g in s.sessions && !s.sessions[g].closed ==> s.sessions[g].routing == []
  }

  /** The candidates are collected; sessions of other owners are through with this transfer. */
  function AfterLookup(s: State): State
    requires s.channel != [] && s.channel[0] < |s.produced|
  {
    var transfer := s.produced[s.channel[0]];
    s.(channel := s.channel[1..], taken := s.taken + [s.channel[0]], looked := s.looked + [transfer],
       pending := (set g | g in s.sessions && !s.sessions[g].closed && s.sessions[g].owner == transfer.owner),
       sessions := map g | g in s.sessions ::
         if s.sessions[g].owner == transfer.owner then s.sessions[g] else Look(s.sessions[g], transfer))
  }

  /** One step. The two handlers may send in any order; a closed session does nothing more. */
  ghost function Step(s: State, e: Event): State {
    match e
    case HandleErc20(_) => Produce(s, Transfers(e))
    case HandleWeth9(_, _) => Produce(s, Transfers(e))
    case Send(i) =>
      if i < |s.outgoing| && |s.channel| < TRANSFER_CHANNEL_CAP then
        s.(outgoing := s.outgoing[..i] + s.outgoing[i + 1..], channel := s.channel + [s.outgoing[i]])
      else s
    case Lookup => if s.channel != [] && s.channel[0] < |s.produced| && RouterIsFree(s) then AfterLookup(s) else s
    case Check(g) =>
      if g in s.pending && g in s.sessions && s.looked != [] then
        AfterCheck(s, g)
      else s
    case Local(g, action) =>
      if g in s.sessions && !s.sessions[g].closed && (action.Enqueue? ==> s.pending == {}) then
        s.(sessions := s.sessions[g := Act(s.sessions[g], action)])
      else s
    case Register(g, owner, tokens) =>
      if g in s.sessions then s
      else s.(sessions := s.sessions[g := Pipe(owner, tokens, map[], false, |s.looked|, [], [], [], [], None, [], [])])
  }

  ghost function Run(events: seq<Event>): State {
    if events == [] then INIT else Step(Run(events[..|events| - 1]), events[|events| - 1])
  }

  /** Every produced transfer is waiting, in the channel or taken. */
  ghost predicate Numbered(s: State) {
    && |s.taken| == |s.looked|
    && (forall i :: 0 <= i < |s.taken| ==> s.taken[i] < |s.produced| && s.produced[s.taken[i]] == s.looked[i])
    && (forall id :: id in s.outgoing || id in s.channel ==> id < |s.produced|)
    && (forall id: nat :: id < |s.produced| ==> id in s.outgoing || id in s.channel || id in s.taken)
  }

  /**
   An open session was looked up for everything taken since its registration, but the transfer
   it is still pending for.
   */
  ghost predicate SessionInv(looked: seq<Transfer>, waiting: bool, p: Pipe) {
    !p.closed ==>
      && p.since <= SeenBy(looked, waiting) <= |looked|
      && TransfersOf(p.checked) == looked[p.since..SeenBy(looked, waiting)]
      && PipeInv(p)
  }

  function SeenBy(looked: seq<Transfer>, waiting: bool): int {
    |looked| - if waiting then 1 else 0
  }

  ghost predicate Inv(s: State) {
    && Numbered(s)
    && forall g :: g in s.sessions ==> SessionInv(s.looked, g in s.pending, s.sessions[g])
  }

  lemma ProduceKeepsInv(s: State, transfers: seq<Transfer>)
    requires Inv(s)
    ensures Inv(Produce(s, transfers))
  {
    var t := Produce(s, transfers);
    forall id: nat | id < |t.produced| ensures id in t.outgoing || id in t.channel || id in t.taken {
      if id >= |s.produced| {
        assert t.outgoing[|s.outgoing| + (id - |s.produced|)] == id;
      }
    }
  }

  lemma TakenOut(hop: seq<nat>, i: nat, id: nat)
    requires i < |hop|
    ensures id in hop <==> id in hop[..i] + hop[i + 1..] || id == hop[i]
  {
    assert hop == hop[..i] + [hop[i]] + hop[i + 1..];
  }

  lemma SendKeepsInv(s: State, i: nat)
    requires Inv(s)
    ensures Inv(Step(s, Send(i)))
  {
    var t := Step(s, Send(i));
    if t != s {
      forall id: nat ensures id in t.outgoing || id in t.channel <==> id in s.outgoing || id in s.channel {
        TakenOut(s.outgoing, i, id);
      }
    }
  }

  lemma LookupIsNumbered(s: State)
    requires Numbered(s) && s.channel != [] && s.channel[0] < |s.produced|
    ensures Numbered(AfterLookup(s))
  {
    var t := AfterLookup(s);
    forall id: nat ensures id in s.channel <==> id in t.channel || id == s.channel[0] {
      TakenOut(s.channel, 0, id);
      assert s.channel[..0] + s.channel[1..] == t.channel;
    }
    forall id: nat ensures id in t.taken <==> id in s.taken || id == s.channel[0] {
    }
  }

  /** One session's share of a lookup. */
  lemma LookupKeepsSession(looked: seq<Transfer>, transfer: Transfer, p: Pipe)
    requires SessionInv(looked, false, p)
    ensures SessionInv(looked + [transfer], true, p)
    ensures SessionInv(looked + [transfer], false, Look(p, transfer))
  {
    if !p.closed {
      var all := looked + [transfer];
      assert all[p.since..|looked|] == looked[p.since..];
      assert TransfersOf(Look(p, transfer).checked) == all[p.since..];
      LookKeepsInv(p, transfer);
    }
  }

  lemma LookupKeepsInv(s: State)
    requires Inv(s) && s.channel != [] && s.channel[0] < |s.produced| && s.pending == {}
    ensures Inv(AfterLookup(s))
  {
    var t, transfer := AfterLookup(s), s.produced[s.channel[0]];
    LookupIsNumbered(s);
    forall g | g in t.sessions ensures SessionInv(t.looked, g in t.pending, t.sessions[g]) {
      LookupKeepsSession(s.looked, transfer, s.sessions[g]);
    }
  }

  /** A pending session's turn. */
  lemma CheckKeepsSession(looked: seq<Transfer>, p: Pipe)
    requires SessionInv(looked, true, p) && looked != []
    ensures SessionInv(looked, false, Look(p, looked[|looked| - 1]))
  {
    if !p.closed {
      assert looked[p.since..] == looked[p.since..|looked| - 1] + [looked[|looked| - 1]];
      assert TransfersOf(Look(p, looked[|looked| - 1]).checked) == looked[p.since..];
      LookKeepsInv(p, looked[|looked| - 1]);
    }
  }

  /** A step of one session that leaves the router's books and the other sessions alone. */
  lemma OneChanges(s: State, t: State, g: nat)
    requires Inv(s) && t == s.(pending := t.pending, sessions := t.sessions)
    requires forall other :: other in t.sessions && other != g ==>
               && other in s.sessions && t.sessions[other] == s.sessions[other]
               && (other in t.pending <==> other in s.pending)
    requires g in t.sessions && SessionInv(s.looked, g in t.pending, t.sessions[g])
    ensures Inv(t)
  {
  }

  function AfterCheck(s: State, g: nat): State
    requires g in s.sessions && s.looked != []
  {
    s.(pending := s.pending - {g}, sessions := s.sessions[g := Look(s.sessions[g], s.looked[|s.looked| - 1])])
  }

  lemma AfterCheckKeepsInv(s: State, g: nat)
    requires Inv(s) && g in s.sessions && g in s.pending && s.looked != []
    ensures Inv(AfterCheck(s, g))
  {
    assert SessionInv(s.looked, true, s.sessions[g]);
    CheckKeepsSession(s.looked, s.sessions[g]);
    OneChanges(s, AfterCheck(s, g), g);
  }

  lemma LocalKeepsInv(s: State, g: nat, action: Action)
    requires Inv(s) && g in s.sessions && !s.sessions[g].closed
    ensures Inv(s.(sessions := s.sessions[g := Act(s.sessions[g], action)]))
  {
    assert SessionInv(s.looked, g in s.pending, s.sessions[g]);
    ActKeepsInv(s.sessions[g], action);
    ActKeepsLookups(s.sessions[g], action);
    OneChanges(s, s.(sessions := s.sessions[g := Act(s.sessions[g], action)]), g);
  }

  lemma RegisterKeepsInv(s: State, e: Event)
    requires Inv(s) && s.pending <= s.sessions.Keys && e.Register?
    ensures Inv(Step(s, e))
  {
    if e.session !in s.sessions {
      var p := Step(s, e).sessions[e.session];
      assert s.looked[|s.looked|..] == [] && TransfersOf(p.checked) == [];
      assert InFlight(p) == [];
    }
  }

  lemma StepKeepsInv(s: State, e: Event)
    requires Inv(s) && s.pending <= s.sessions.Keys
    ensures Inv(Step(s, e)) && Step(s, e).pending <= Step(s, e).sessions.Keys
  {
    match e
    case HandleErc20(_) => ProduceKeepsInv(s, Transfers(e));
    case HandleWeth9(_, _) => ProduceKeepsInv(s, Transfers(e));
    case Send(i) => SendKeepsInv(s, i);
    case Lookup =>
      if s.channel != [] && RouterIsFree(s) {
        assert s.channel[0] in s.channel;
        LookupKeepsInv(s);
      }
    case Check(g) =>
      if g in s.pending && s.looked != [] {
        AfterCheckKeepsInv(s, g);
      }
    case Local(g, action) =>
      if g in s.sessions && !s.sessions[g].closed {
        LocalKeepsInv(s, g, action);
      }
    case Register(_, _, _) => RegisterKeepsInv(s, e);
  }

  lemma {:induction false} RunKeepsInv(events: seq<Event>)
    ensures Inv(Run(events)) && Run(events).pending <= Run(events).sessions.Keys
  {
    if events != [] {
      RunKeepsInv(events[..|events| - 1]);
      StepKeepsInv(Run(events[..|events| - 1]), events[|events| - 1]);
    }
  }

  // ----- what a reader can rely on -----

  /**
   The r-th request the session was sent is the refresh for `transfer`: merged, and then read
   no earlier than the event and, unless the answer left the token out or it was evicted
   since, stored no older than it was read; or still on its way to the merge.
   */
  ghost predicate Refreshed(p: Pipe, r: nat, transfer: Transfer) {
    if r < |p.done| then
      var done := p.done[r];
      && done.request.token == transfer.token && done.request.block == transfer.block
      && (transfer.block.Some? ==> transfer.block.value <= done.readAt)
      && (transfer.token in done.balances && !done.evicted ==>
            && transfer.token in p.snapshot && done.readAt <= p.snapshot[transfer.token].block
            && (transfer.block.Some? ==> transfer.block.value <= p.snapshot[transfer.token].block))
    else
      && r - |p.done| < |InFlight(p)|
      && InFlight(p)[r - |p.done|].token == transfer.token && InFlight(p)[r - |p.done|].block == transfer.block
      && Underway(p, transfer.token, transfer.block)
  }

  /** A request for the token, with that block, is in one of the session's hops. */
  ghost predicate Underway(p: Pipe, token: Address, block: Option<BlockNumber>) {
    || Request(token, block) in p.routing || Request(token, block) in p.inbound || Request(token, block) in p.batch
    || exists i :: 0 <= i < |p.outbound| && Request(token, block) in p.outbound[i].requests
  }

  /** Of the first `j` lookups, those whose owner was the session's and whose token it then watched. */
  function WatchedBefore(p: Pipe, j: nat): set<nat>
    requires j <= |p.checked|
  {
    set i: nat | i < j && p.checked[i].transfer.owner == p.owner && p.checked[i].transfer.token in p.checked[i].watched
  }

  /**
   What the k-th lookup, of `transfer`, means for a session: nothing if it was closed or is
   younger; otherwise its turn is still to come, or it was checked - and if its owner is the
   transfer's and it then watched the token, the refresh it was sent is accounted for.
   */
  ghost predicate Reached(s: State, g: nat, k: nat, transfer: Transfer)
    requires g in s.sessions
  {
    var p := s.sessions[g];
    p.closed || k < p.since || (g in s.pending && k == |s.taken| - 1)
    || (k - p.since < |p.checked| && p.checked[k - p.since].transfer == transfer
        && (transfer.owner == p.owner && transfer.token in p.checked[k - p.since].watched ==>
              Refreshed(p, |WatchedBefore(p, k - p.since)|, transfer)))
  }

  /** The position of a checked transfer among the routed ones. */
  lemma {:induction false} RoutedAt(owner: Address, checked: seq<Checked>, j: nat)
    requires j < |checked| && Watching(owner, checked[j])
    ensures var r := |Routed(owner, checked[..j])|;
            r < |Routed(owner, checked)| && Routed(owner, checked)[r] == RequestOf(checked[j].transfer)
  {
    if j < |checked| - 1 {
      var front := checked[..|checked| - 1];
      assert front[..j] == checked[..j];
      RoutedAt(owner, front, j);
    }
  }

  lemma {:induction false} RoutedCount(p: Pipe, j: nat)
    requires j <= |p.checked|
    ensures |Routed(p.owner, p.checked[..j])| == |WatchedBefore(p, j)|
  {
    if j > 0 {
      RoutedCount(p, j - 1);
      assert p.checked[..j][..j - 1] == p.checked[..j - 1];
      var before := WatchedBefore(p, j - 1);
      assert WatchedBefore(p, j) == if Watching(p.owner, p.checked[j - 1]) then before + {j - 1} else before;
    } else {
      assert WatchedBefore(p, 0) == {};
    }
  }

  lemma LookupReaches(s: State, g: nat, k: nat)
    requires Inv(s) && g in s.sessions && k < |s.taken|
    ensures Reached(s, g, k, s.looked[k])
  {
    var p := s.sessions[g];
    assert SessionInv(s.looked, g in s.pending, p);
    if !p.closed && p.since <= k && !(g in s.pending && k == |s.taken| - 1) {
      var j := k - p.since;
      assert p.checked[j].transfer == TransfersOf(p.checked)[j] == s.looked[k];
      if Watching(p.owner, p.checked[j]) {
        RoutedAt(p.owner, p.checked, j);
        RoutedCount(p, j);
        RoutedIsRefreshed(p, |WatchedBefore(p, j)|, p.checked[j].transfer);
      }
    }
  }

  lemma RoutedIsRefreshed(p: Pipe, r: nat, transfer: Transfer)
    requires PipeInv(p) && r < |Routed(p.owner, p.checked)|
    requires Routed(p.owner, p.checked)[r] == RequestOf(transfer)
    ensures Refreshed(p, r, transfer)
  {
    if r < |p.done| {
      assert RequestsOf(p.done)[r] == p.done[r].request;
      assert UpToDate(p.snapshot, p.done[r]);
    } else {
      assert InFlight(p)[r - |p.done|] == RequestOf(transfer);
      FlyingIsUnderway(p, RequestOf(transfer));
    }
  }

  lemma FlyingIsUnderway(p: Pipe, request: Request)
    requires request in InFlight(p)
    ensures Underway(p, request.token, request.block)
  {
    if request in Carried(p.outbound) {
      CarriedIn(p.outbound, request);
    }
  }

  lemma {:induction false} CarriedIn(outbound: seq<Answer>, request: Request)
    requires request in Carried(outbound)
    ensures exists i :: 0 <= i < |outbound| && request in outbound[i].requests
  {
    var front, last := outbound[..|outbound| - 1], outbound[|outbound| - 1];
    if request in last.requests {
      assert request in outbound[|outbound| - 1].requests;
    } else {
      CarriedIn(front, request);
      var i :| 0 <= i < |front| && request in front[i].requests;
      assert request in outbound[i].requests;
    }
  }

  lemma ProducedGrows(s: State, e: Event)
    ensures s.produced <= Step(s, e).produced && Step(s, e).produced == s.produced + Transfers(e)
  {
  }

  lemma {:induction false} ProducedAt(events: seq<Event>, i: nat)
    requires i < |events|
    ensures var before := Run(events[..i]).produced; before + Transfers(events[i]) <= Run(events).produced
  {
    var earlier, last := events[..|events| - 1], events[|events| - 1];
    ProducedGrows(Run(earlier), last);
    if i < |earlier| {
      assert earlier[..i] == events[..i];
      ProducedAt(earlier, i);
    }
  }

  /** The event numbered `id` is on its way to the router, or a lookup of it has reached every session. */
  ghost predicate Followed(s: State, id: nat, transfer: Transfer) {
    || id in s.outgoing || id in s.channel
    || exists k :: 0 <= k < |s.taken| && s.taken[k] == id && forall g :: g in s.sessions ==> Reached(s, g, k, transfer)
  }

  /**
   No miss, for each handled log and each owner it names, in every run: the event has a
   number of its own and is on its way to the router, or it was looked up; and then each open
   session registered before the lookup is about to be checked or was checked, and if it was
   found watching, the refresh is in its queue, a batch or a result, or it was merged - and
   then read no earlier than the log's block and stored no older than it was read, unless the
   answer left the token out or a later replacement evicted it.
   */
  lemma NothingIsMissed(events: seq<Event>, i: nat, j: nat)
    requires i < |events| && j < |Transfers(events[i])|
    ensures var id, transfer := |Run(events[..i]).produced| + j, Transfers(events[i])[j];
            && id < |Run(events).produced| && Run(events).produced[id] == transfer
            && Followed(Run(events), id, transfer)
  {
    RunKeepsInv(events);
    ProducedAt(events, i);
    NumberIsFollowed(Run(events), |Run(events[..i]).produced| + j);
  }

  lemma NumberIsFollowed(s: State, id: nat)
    requires Inv(s) && id < |s.produced|
    ensures Followed(s, id, s.produced[id])
  {
    if id !in s.outgoing && id !in s.channel {
      assert id in s.taken;
      var k :| 0 <= k < |s.taken| && s.taken[k] == id;
      forall g | g in s.sessions ensures Reached(s, g, k, s.produced[id]) {
        LookupReaches(s, g, k);
      }
    }
  }

  // ----- eviction -----

  /** The r-th merged request of the session was merged before the i-th event, which drops its token from the list. */
  ghost predicate EvictedAt(events: seq<Event>, g: nat, r: nat, token: Address, i: nat)
    requires i < |events|
  {
    var s := Run(events[..i]);
    && g in s.sessions && r < |s.sessions[g].done|
    && events[i].Local? && events[i].session == g && events[i].action.Replace? && token !in events[i].action.tokens
  }

  /** What a step does to a merged request: at most a replacement that drops its token evicts it. */
  lemma DoneStep(s: State, e: Event, g: nat, r: nat)
    requires g in s.sessions
    ensures var t := Step(s, e);
            g in t.sessions && |s.sessions[g].done| <= |t.sessions[g].done|
            && (r < |s.sessions[g].done| && t.sessions[g].done[r] != s.sessions[g].done[r] ==>
                  && e.Local? && e.session == g && e.action.Replace?
                  && s.sessions[g].done[r].request.token !in e.action.tokens
                  && t.sessions[g].done[r] == s.sessions[g].done[r].(evicted := true))
            && (|s.sessions[g].done| <= r < |t.sessions[g].done| ==> !t.sessions[g].done[r].evicted)
  {
  }

  /** Nothing is evicted but by a replacement after the merge whose list leaves the token out. */
  lemma {:induction false} EvictionHasReplacement(events: seq<Event>, g: nat, r: nat)
    requires g in Run(events).sessions && r < |Run(events).sessions[g].done| && Run(events).sessions[g].done[r].evicted
    ensures exists i :: 0 <= i < |events| && EvictedAt(events, g, r, Run(events).sessions[g].done[r].request.token, i)
  {
    var earlier, last := events[..|events| - 1], events[|events| - 1];
    var s := Run(earlier);
    if g in s.sessions {
      DoneStep(s, last, g, r);
      var token := Run(events).sessions[g].done[r].request.token;
      if s.sessions[g].done[r].evicted {
        EvictionHasReplacement(earlier, g, r);
        var i :| 0 <= i < |earlier| && EvictedAt(earlier, g, r, token, i);
        assert events[..i] == earlier[..i];
        assert EvictedAt(events, g, r, token, i);
      } else {
        assert events[..|earlier|] == earlier;
        assert EvictedAt(events, g, r, token, |earlier|);
      }
    }
  }

  // ----- where the recorded facts come from -----

  /**
   The transfers a log gives rise to, exactly: sender and receiver of an ERC-20 transfer, or the
   owner of a wrapping.
   */
  lemma TransfersExact(e: Event, transfer: Transfer)
    ensures transfer in Transfers(e) <==>
              match e
              case HandleErc20(log) =>
                && |log.topics| == 3 && transfer.token == log.address && transfer.block == log.block
                && (transfer.owner == log.topics[1] % ADDRESS_RANGE || transfer.owner == log.topics[2] % ADDRESS_RANGE)
              case HandleWeth9(weth9, log) =>
                && log.address == weth9.contract && |log.topics| >= 2
                && (log.topics[0] == weth9.deposit || log.topics[0] == weth9.withdrawal)
                && transfer == Transfer(log.topics[1] % ADDRESS_RANGE, log.address, log.block)
              case _ => false
  {
  }

  /** Every transfer event was produced by handling a log that gives rise to it. */
  lemma {:induction false} NothingIsInvented(events: seq<Event>, id: nat) returns (i: nat)
    requires id < |Run(events).produced|
    ensures i < |events| && Run(events).produced[id] in Transfers(events[i])
  {
    var earlier, last := events[..|events| - 1], events[|events| - 1];
    ProducedGrows(Run(earlier), last);
    if id < |Run(earlier).produced| {
      i := NothingIsInvented(earlier, id);
    } else {
      i := |earlier|;
      assert Run(events).produced[id] == Transfers(last)[id - |Run(earlier).produced|];
    }
  }

  /** What one step does to a registered session's lookups and its being open. */
  lemma SessionStep(s: State, e: Event, g: nat)
    requires g in s.sessions
    ensures var p := s.sessions[g];
            && g in Step(s, e).sessions
            && var q := Step(s, e).sessions[g];
            && (q.checked == p.checked
                || (|q.checked| == |p.checked| + 1 && q.checked[..|p.checked|] == p.checked
                    && q.checked[|p.checked|].watched == p.watched))
            && (q.closed && !p.closed ==>
                  && e.Local? && e.session == g
                  && (e.action.Close? || (e.action.Merged? && p.outbound != [] && p.outbound[0].Broken?)))
  {
  }

  lemma RegisteredStep(s: State, e: Event, g: nat)
    requires g !in s.sessions && g in Step(s, e).sessions
    ensures var q := Step(s, e).sessions[g]; q.checked == [] && q.done == [] && q.outbound == [] && !q.closed
  {
  }

  /** The i-th event is the one that gave the session its j-th lookup, when it watched `watched`. */
  ghost predicate CheckedAt(events: seq<Event>, g: nat, j: nat, watched: set<Address>, i: nat)
    requires i < |events|
  {
    var before, after := Run(events[..i]), Run(events[..i + 1]);
    && g in before.sessions && |before.sessions[g].checked| == j && before.sessions[g].watched == watched
    && g in after.sessions && |after.sessions[g].checked| == j + 1
  }

  /** The watched set a lookup was decided by is the one the session had at that moment. */
  lemma {:induction false} CheckedAgainstWatched(events: seq<Event>, g: nat, j: nat) returns (i: nat)
    requires g in Run(events).sessions && j < |Run(events).sessions[g].checked|
    ensures i < |events| && CheckedAt(events, g, j, Run(events).sessions[g].checked[j].watched, i)
  {
    var earlier, last := events[..|events| - 1], events[|events| - 1];
    var s := Run(earlier);
    assert events == earlier + [last];
    if g !in s.sessions {
      RegisteredStep(s, last, g);
      assert false;
    }
    SessionStep(s, last, g);
    if j < |s.sessions[g].checked| {
      i := CheckedAgainstWatched(earlier, g, j);
      CheckedStays(earlier, last, g, j, Run(events).sessions[g].checked[j].watched, i);
    } else {
      i := |earlier|;
      CheckedNow(earlier, last, g);
    }
  }

  lemma CheckedStays(earlier: seq<Event>, last: Event, g: nat, j: nat, watched: set<Address>, i: nat)
    requires i < |earlier| && CheckedAt(earlier, g, j, watched, i)
    ensures CheckedAt(earlier + [last], g, j, watched, i)
  {
    var events := earlier + [last];
    assert events[..i] == earlier[..i] && events[..i + 1] == earlier[..i + 1];
  }

  lemma CheckedNow(earlier: seq<Event>, last: Event, g: nat)
    requires var s, t := Run(earlier), Run(earlier + [last]);
             g in s.sessions && g in t.sessions && |t.sessions[g].checked| == |s.sessions[g].checked| + 1
    ensures var p := Run(earlier).sessions[g];
            CheckedAt(earlier + [last], g, |p.checked|, p.watched, |earlier|)
  {
    var events := earlier + [last];
    assert events[..|earlier|] == earlier && events[..|earlier| + 1] == events;
  }

  /** The i-th event ends the session: it is removed or cancelled, or the error of a failed batch reaches it. */
  ghost predicate EndedAt(events: seq<Event>, g: nat, i: nat)
    requires i < |events|
  {
    var s := Run(events[..i]);
    && events[i].Local? && events[i].session == g && g in s.sessions
    && (events[i].action.Close?
        || (events[i].action.Merged? && s.sessions[g].outbound != [] && s.sessions[g].outbound[0].Broken?))
  }

  /** Nothing else closes a session. */
  lemma {:induction false} ClosedByItsEnd(events: seq<Event>, g: nat) returns (i: nat)
    requires g in Run(events).sessions && Run(events).sessions[g].closed
    ensures i < |events| && EndedAt(events, g, i)
  {
    var earlier, last := events[..|events| - 1], events[|events| - 1];
    var s := Run(earlier);
    assert events == earlier + [last];
    if g !in s.sessions {
      RegisteredStep(s, last, g);
      assert false;
    }
    SessionStep(s, last, g);
    if s.sessions[g].closed {
      i := ClosedByItsEnd(earlier, g);
      assert events[..i] == earlier[..i];
    } else {
      i := |earlier|;
    }
  }

  /** The node gave that answer, at that block, to a batch that held the request. */
  ghost predicate AnsweredAt(events: seq<Event>, g: nat, request: Request, balances: map<Address, nat>,
                             readAt: BlockNumber, i: nat)
    requires i < |events|
  {
    var s := Run(events[..i]);
    events[i] == Local(g, Fetch(balances, readAt)) && g in s.sessions && request in s.sessions[g].batch
  }

  ghost predicate WasAnswered(events: seq<Event>, g: nat, request: Request, balances: map<Address, nat>,
                              readAt: BlockNumber) {
    exists i :: 0 <= i < |events| && AnsweredAt(events, g, request, balances, readAt, i)
  }

  lemma AnsweredStays(earlier: seq<Event>, last: Event, g: nat, request: Request, balances: map<Address, nat>,
                      readAt: BlockNumber)
    requires WasAnswered(earlier, g, request, balances, readAt)
    ensures WasAnswered(earlier + [last], g, request, balances, readAt)
  {
    var i :| 0 <= i < |earlier| && AnsweredAt(earlier, g, request, balances, readAt, i);
    assert (earlier + [last])[..i] == earlier[..i];
    assert AnsweredAt(earlier + [last], g, request, balances, readAt, i);
  }

  lemma AnsweredNow(earlier: seq<Event>, g: nat, request: Request, balances: map<Address, nat>, readAt: BlockNumber)
    requires g in Run(earlier).sessions && request in Run(earlier).sessions[g].batch
    ensures WasAnswered(earlier + [Local(g, Fetch(balances, readAt))], g, request, balances, readAt)
  {
    var events := earlier + [Local(g, Fetch(balances, readAt))];
    assert events[..|earlier|] == earlier;
    assert AnsweredAt(events, g, request, balances, readAt, |earlier|);
  }

  ghost predicate ResultsAnswered(events: seq<Event>, g: nat, p: Pipe) {
    && (forall k, request :: 0 <= k < |p.outbound| && p.outbound[k].Answer? && request in p.outbound[k].requests ==>
          WasAnswered(events, g, request, p.outbound[k].balances, p.outbound[k].readAt))
    && (forall r :: 0 <= r < |p.done| ==>
          WasAnswered(events, g, p.done[r].request, p.done[r].balances, p.done[r].readAt))
  }

  /** What one action adds to a session's results. */
  lemma ResultsStep(p: Pipe, e: Action)
    ensures var q := Act(p, e);
            && (q.outbound == p.outbound
                || (p.outbound != [] && q.outbound == p.outbound[1..])
                || (e.FetchFails? && q.outbound == p.outbound + [Broken(p.batch)])
                || (e.Fetch? && q.outbound == p.outbound + [Answer(p.batch, e.balances, e.readAt)]))
            && (forall r :: 0 <= r < |q.done| ==>
                  if r < |p.done| then
                    && q.done[r].request == p.done[r].request && q.done[r].balances == p.done[r].balances
                    && q.done[r].readAt == p.done[r].readAt
                  else
                    && p.outbound != [] && p.outbound[0].Answer? && q.done[r].request in p.outbound[0].requests
                    && q.done[r].balances == p.outbound[0].balances && q.done[r].readAt == p.outbound[0].readAt)
  {
  }

  lemma ActKeepsAnswered(earlier: seq<Event>, g: nat, action: Action)
    requires g in Run(earlier).sessions && ResultsAnswered(earlier, g, Run(earlier).sessions[g])
    ensures ResultsAnswered(earlier + [Local(g, action)], g, Act(Run(earlier).sessions[g], action))
  {
    var p, e := Run(earlier).sessions[g], Local(g, action);
    var q := Act(p, action);
    ResultsStep(p, action);
    forall k, request | 0 <= k < |q.outbound| && q.outbound[k].Answer? && request in q.outbound[k].requests
      ensures WasAnswered(earlier + [e], g, request, q.outbound[k].balances, q.outbound[k].readAt)
    {
      if q.outbound[k] in p.outbound {
        var j :| 0 <= j < |p.outbound| && p.outbound[j] == q.outbound[k];
        AnsweredStays(earlier, e, g, request, q.outbound[k].balances, q.outbound[k].readAt);
      } else {
        AnsweredNow(earlier, g, request, q.outbound[k].balances, q.outbound[k].readAt);
      }
    }
    forall r | 0 <= r < |q.done|
      ensures WasAnswered(earlier + [e], g, q.done[r].request, q.done[r].balances, q.done[r].readAt)
    {
      AnsweredStays(earlier, e, g, q.done[r].request, q.done[r].balances, q.done[r].readAt);
    }
  }

  /** Steps that are not the session's own leave its results alone. */
  lemma OtherStepKeepsResults(s: State, e: Event, g: nat)
    requires g in s.sessions && !(e.Local? && e.session == g)
    ensures g in Step(s, e).sessions
    ensures Step(s, e).sessions[g].outbound == s.sessions[g].outbound
      && Step(s, e).sessions[g].done == s.sessions[g].done
  {
  }

  lemma OthersKeepAnswered(earlier: seq<Event>, e: Event, g: nat, p: Pipe, q: Pipe)
    requires ResultsAnswered(earlier, g, p) && q.outbound == p.outbound && q.done == p.done
    ensures ResultsAnswered(earlier + [e], g, q)
  {
    forall k, request | 0 <= k < |q.outbound| && q.outbound[k].Answer? && request in q.outbound[k].requests
      ensures WasAnswered(earlier + [e], g, request, q.outbound[k].balances, q.outbound[k].readAt)
    {
      AnsweredStays(earlier, e, g, request, q.outbound[k].balances, q.outbound[k].readAt);
    }
    forall r | 0 <= r < |q.done|
      ensures WasAnswered(earlier + [e], g, q.done[r].request, q.done[r].balances, q.done[r].readAt)
    {
      AnsweredStays(earlier, e, g, q.done[r].request, q.done[r].balances, q.done[r].readAt);
    }
  }

  lemma {:induction false} RunKeepsAnswered(events: seq<Event>, g: nat)
    requires g in Run(events).sessions
    ensures ResultsAnswered(events, g, Run(events).sessions[g])
  {
    var earlier, last := events[..|events| - 1], events[|events| - 1];
    var s := Run(earlier);
    assert events == earlier + [last];
    if g !in s.sessions {
      RegisteredStep(s, last, g);
    } else {
      RunKeepsAnswered(earlier, g);
      if last.Local? && last.session == g && Step(s, last) != s {
        ActKeepsAnswered(earlier, g, last.action);
      } else {
        if !(last.Local? && last.session == g) {
          OtherStepKeepsResults(s, last, g);
        }
        OthersKeepAnswered(earlier, last, g, s.sessions[g], Run(events).sessions[g]);
      }
    }
  }

  /** The answer a merged request is recorded with is one the node gave to a batch that held it. */
  lemma FateIsTheNodes(events: seq<Event>, g: nat, r: nat)
    requires g in Run(events).sessions && r < |Run(events).sessions[g].done|
    ensures var done := Run(events).sessions[g].done[r];
            exists i :: 0 <= i < |events| && AnsweredAt(events, g, done.request, done.balances, done.readAt, i)
  {
    RunKeepsAnswered(events, g);
    var done := Run(events).sessions[g].done[r];
    assert WasAnswered(events, g, done.request, done.balances, done.readAt);
  }

  // ----- nothing is stuck -----

  /**
   The router's own moves: a transfer enters the channel when there is room; a free router
   takes the oldest and has every open session of its owner still to check; and a check leaves
   one candidate fewer.
   */
  lemma RouterMoves(s: State)
    requires Inv(s) && s.pending <= s.sessions.Keys
    ensures forall i: nat :: i < |s.outgoing| && |s.channel| < TRANSFER_CHANNEL_CAP ==>
              Step(s, Send(i)).channel == s.channel + [s.outgoing[i]]
    ensures s.channel != [] && RouterIsFree(s) ==>
              var t := Step(s, Lookup);
              && t.taken == s.taken + [s.channel[0]] && t.channel == s.channel[1..]
              && forall g :: g in t.pending <==>
                   g in s.sessions && !s.sessions[g].closed && s.sessions[g].owner == s.produced[s.channel[0]].owner
    ensures forall g :: g in s.pending && s.looked != [] ==>
              var t := Step(s, Check(g));
              t.pending == s.pending - {g} && |t.sessions[g].checked| == |s.sessions[g].checked| + 1
  {
    if s.channel != [] {
      assert s.channel[0] in s.channel;
    }
  }

  ghost function Acts(p: Pipe, actions: seq<Action>): Pipe
    decreases |actions|
  {
    if actions == [] then p else Acts(Act(p, actions[0]), actions[1..])
  }

  /** How far the session's requests still have to go. */
  function Distance(p: Pipe): nat {
    5 * |p.routing| + 4 * |p.inbound| + 3 * |p.batch| + |p.outbound| + if p.reading.None? then 1 else 0
  }

  ghost predicate Unbroken(p: Pipe) {
    !p.closed && forall i :: 0 <= i < |p.outbound| ==> p.outbound[i].Answer?
  }

  /** Every batch can be resolved to a block. */
  lemma SomeBlock(batch: seq<Request>) returns (id: BlockId)
    ensures Resolves(CoalesceByToken(batch), id)
  {
    var coalesced := CoalesceByToken(batch);
    if exists token :: token in coalesced && coalesced[token].None? {
      id := Latest;
    } else {
      id := HighestBlock(coalesced, coalesced.Keys);
      assert coalesced == Only(coalesced, coalesced.Keys);
    }
  }

  lemma {:induction false} HighestBlock(batch: map<Address, Option<BlockNumber>>,
                                        tokens: set<Address>) returns (id: BlockId)
    requires tokens <= batch.Keys && forall token :: token in batch ==> batch[token].Some?
    ensures Resolves(Only(batch, tokens), id)
    decreases |tokens|
  {
    if tokens == {} {
      id := Latest;
    } else {
      var token :| token in tokens;
      var all, others := Only(batch, tokens), Only(batch, tokens - {token});
      var rest := HighestBlock(batch, tokens - {token});
      assert forall other :: other in all <==> other in others || other == token;
      var block := batch[token].value;
      if rest.Latest? {
        id := if block == 0 then Latest else Number(block);
        assert all[token] == Some(block);
      } else if rest.block < block {
        id := Number(block);
        assert all[token] == Some(block);
      } else {
        id := rest;
        var other :| other in others && others[other] == Some(rest.block);
        assert all[other] == Some(rest.block);
      }
    }
  }

  function Only(batch: map<Address, Option<BlockNumber>>, tokens: set<Address>): map<Address, Option<BlockNumber>>
    requires tokens <= batch.Keys
  {
    map token | token in tokens :: batch[token]
  }

  /** An answer for every token of the batch, at a late enough block. */
  lemma AnswerableAt(p: Pipe, node: Address -> nat) returns (e: Action)
    requires PipeInv(p) && p.reading.Some? && |p.outbound| < QUEUE_CHANNEL_CAP
    ensures e.Fetch? && CanAnswer(p, e)
    ensures forall request :: request in p.batch ==> request.token in e.balances
  {
    var coalesced := CoalesceByToken(p.batch);
    var balances := map token | token in coalesced :: node(token);
    var readAt := LateEnough(p.batch, if p.reading.value.Number? then p.reading.value.block else 0);
    e := Fetch(balances, readAt);
    forall request | request in p.batch ensures request.token in coalesced {
      CoalesceStandsFor(p.batch, request.token);
    }
  }

  lemma {:induction false} LateEnough(batch: seq<Request>, floor: nat) returns (readAt: nat)
    ensures floor <= readAt && NoOlder(batch, readAt)
    decreases |batch|
  {
    readAt := floor;
    if batch != [] {
      var front, last := batch[..|batch| - 1], batch[|batch| - 1];
      readAt := LateEnough(front, if last.block.Some? then Max(floor, last.block.value) else floor);
      assert forall request :: request in batch <==> request in front || request == last;
    }
  }

  /**
   While a request is in flight some action brings it closer, breaks nothing, and leaves no
   token out of an answer.
   */
  lemma NextAction(p: Pipe, node: Address -> nat) returns (e: Action)
    requires PipeInv(p) && Unbroken(p) && InFlight(p) != []
    ensures Unbroken(Act(p, e)) && Distance(Act(p, e)) < Distance(p)
    ensures e.Fetch? ==> forall request :: request in p.batch ==> request.token in e.balances
    ensures !e.Replace? && !e.OtherMerge?
  {
    if p.outbound != [] {
      e := Merged;
    } else if p.reading.Some? {
      e := AnswerableAt(p, node);
    } else if p.batch != [] {
      var id := SomeBlock(p.batch);
      e := Dispatch(id);
    } else if p.inbound != [] {
      e := Gather;
    } else {
      assert Carried([]) + [] + [] + p.routing == p.routing;
      e := Enqueue;
    }
  }

  /**
   From every reachable state of an open session whose results hold no error, with a node that
   answers, its own tasks can bring every request routed to it to the merge.
   */
  lemma {:induction false} NothingIsStuck(p: Pipe, node: Address -> nat) returns (actions: seq<Action>)
    requires PipeInv(p) && Unbroken(p)
    ensures var q := Acts(p, actions);
            !q.closed && InFlight(q) == [] && RequestsOf(q.done) == RequestsOf(p.done) + InFlight(p)
    decreases Distance(p)
  {
    if InFlight(p) == [] {
      actions := [];
      assert RequestsOf(p.done) + [] == RequestsOf(p.done);
    } else {
      var e := NextAction(p, node);
      ActKeepsInv(p, e);
      ActKeepsLookups(p, e);
      var rest := NothingIsStuck(Act(p, e), node);
      actions := [e] + rest;
      assert actions[1..] == rest;
    }
  }
}
