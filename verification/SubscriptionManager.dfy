/**
 The registry of live sessions: what each of its lock sections does to the map, and the
 object that runs them. A subscription (an `Arc` in the code) is named by its generation
 number, counted over every subscription ever created.
 */
module SubscriptionManager {
  import opened Domain

  const MAX_CLIENTS_PER_OWNER := 5
  const SESSION_TTL := 5000      // milliseconds
  const U32_MAX := 0xFFFF_FFFF

  datatype Session = Session(owner: Address, network: nat, clientId: nat)

  datatype SubWithCounter = SubWithCounter(generation: nat, clients: nat, idleSince: Option<nat>)

  type Registry = map<Session, SubWithCounter>

  function OwnedBy(subs: Registry, owner: Address): set<Session> {
    set session | session in subs && session.owner == owner
  }

  datatype UpsertOutcome =
    | Existing(generation: nat)
    | Created(generation: nat)        // carries the one queue receiver of that generation
    | OwnerClientLimitExceeded

  /** The decision under the write lock: re-check, cap check, insert. */
  function Decide(subs: Registry, session: Session, nextGeneration: nat): UpsertOutcome {
    if session in subs then Existing(subs[session].generation)
    else if |OwnedBy(subs, session.owner)| >= MAX_CLIENTS_PER_OWNER then OwnerClientLimitExceeded
    else Created(nextGeneration)
  }

  function Inserted(subs: Registry, session: Session, outcome: UpsertOutcome, now: nat): Registry {
    if outcome.Created? then subs[session := SubWithCounter(outcome.generation, 0, Some(now))] else subs
  }

  function Joined(subs: Registry, session: Session): Registry
    requires session in subs
  {
    var entry := subs[session];
    subs[session := entry.(clients := if entry.clients == U32_MAX then U32_MAX else entry.clients + 1,
                           idleSince := None)]
  }

  function Departed(subs: Registry, session: Session, now: nat): Registry
    requires session in subs && subs[session].clients >= 1
  {
    var entry := subs[session];
    subs[session := entry.(clients := entry.clients - 1,
                           idleSince := if entry.clients == 1 then Some(now) else entry.idleSince)]
  }

  predicate Expired(entry: SubWithCounter, now: nat) {
    entry.clients == 0 && entry.idleSince.Some? && now > entry.idleSince.value + SESSION_TTL
  }

  function Swept(subs: Registry, now: nat): Registry {
    map session | session in subs && !Expired(subs[session], now) :: subs[session]
  }

  class Manager {
    var subscriptions: Registry
    var created: seq<Session>                    // by generation
    var cancelled: set<nat>
    var watched: map<nat, set<Address>>          // by generation
    var refreshes: seq<nat>                      // forced snapshot refreshes, by generation
    var closeEvents: seq<Session>                // sessions sent the 503 of a shutdown
    ghost var versions: seq<map<nat, set<Address>>>   // history: every value of `watched`, the last being current

    ghost predicate Valid()
      reads this
    {
      && (forall session :: session in subscriptions ==>
            subscriptions[session].generation < |created| && created[subscriptions[session].generation] == session)
      && (forall g :: g in watched <==> 0 <= g < |created|)
      && versions != [] && versions[|versions| - 1] == watched
    }

    constructor ()
      ensures Valid() && subscriptions == map[] && created == [] && cancelled == {}
      ensures watched == map[] && refreshes == [] && closeEvents == [] && versions == [map[]]
    {
      subscriptions, created, cancelled, watched, refreshes, closeEvents := map[], [], {}, map[], [], [];
      versions := [map[]];
    }

    /** The read-locked fast path. */
    method Find(session: Session) returns (generation: Option<nat>)
      ensures generation == if session in subscriptions then Some(subscriptions[session].generation) else None
    {
      generation := if session in subscriptions then Some(subscriptions[session].generation) else None;
    }

    /** The write-locked create path. */
    method CreateSession(session: Session, tokens: set<Address>, now: nat) returns (outcome: UpsertOutcome)
      requires Valid()
      modifies this`subscriptions, this`created, this`watched, this`versions
      ensures Valid() && versions == if outcome.Created? then old(versions) + [watched] else old(versions)
      ensures outcome == Decide(old(subscriptions), session, |old(created)|)
      ensures subscriptions == Inserted(old(subscriptions), session, outcome, now)
      ensures outcome.Existing? <==> session in old(subscriptions)
      ensures outcome.Existing? ==> outcome.generation == old(subscriptions)[session].generation
      ensures outcome.OwnerClientLimitExceeded? <==>
                && session !in old(subscriptions)
                && |set s | s in old(subscriptions) && s.owner == session.owner| >= MAX_CLIENTS_PER_OWNER
      ensures outcome.Created? ==>
                && outcome.generation == |old(created)|
                && subscriptions == old(subscriptions)[session := SubWithCounter(outcome.generation, 0, Some(now))]
      ensures !outcome.Created? ==> subscriptions == old(subscriptions)
      ensures created == if outcome.Created? then old(created) + [session] else old(created)
      ensures watched == if outcome.Created? then old(watched)[outcome.generation := tokens] else old(watched)
    {
      if session in subscriptions {
        return Existing(subscriptions[session].generation);
      }
      var existingForOwner := |set s | s in subscriptions && s.owner == session.owner|;
      if existingForOwner >= MAX_CLIENTS_PER_OWNER {
        return OwnerClientLimitExceeded;
      }
      outcome := Created(|created|);
      subscriptions := subscriptions[session := SubWithCounter(|created|, 0, Some(now))];
      watched := watched[|created| := tokens];
      created := created + [session];
      versions := versions + [watched];
    }

    method ReplaceWatchedTokens(generation: nat, tokens: set<Address>)
      requires Valid() && generation in watched
      modifies this`watched, this`refreshes, this`versions
      ensures Valid() && watched == old(watched)[generation := tokens] && versions == old(versions) + [watched]
      ensures refreshes == if old(watched)[generation] != tokens then old(refreshes) + [generation] else old(refreshes)
    {
      if watched[generation] != tokens {
        refreshes := refreshes + [generation];
      }
      watched := watched[generation := tokens];
      versions := versions + [watched];
    }

    /** Between two lock sections other tasks may do anything to the registry, but never unmake a subscription. */
    method OtherTasksRun()
      requires Valid()
      modifies this
      ensures Valid() && old(created) <= created && old(versions) <= versions
    {
    }

    /**
     The whole upsert, with other tasks running between its lock sections. The tokens end
     up in force for a subscription of this very session, and a receiver is handed out only
     with a generation that did not exist before.
     */
    method Upsert(session: Session, tokens: set<Address>, now: nat) returns (outcome: UpsertOutcome)
      requires Valid()
      modifies this
      ensures Valid() && old(created) <= created
      ensures !outcome.OwnerClientLimitExceeded? ==>
                && outcome.generation < |created| && created[outcome.generation] == session
                && watched[outcome.generation] == tokens
      ensures outcome.Created? ==>
                && outcome.generation >= |old(created)|
                && session in subscriptions && subscriptions[session].generation == outcome.generation
                && subscriptions[session].clients == 0 && subscriptions[session].idleSince == Some(now)
      ensures outcome.OwnerClientLimitExceeded? ==>
                && session !in subscriptions
                && |set s | s in subscriptions && s.owner == session.owner| >= MAX_CLIENTS_PER_OWNER
      ensures session in old(subscriptions) ==> outcome == Existing(old(subscriptions)[session].generation)
    {
      var found := Find(session);
      OtherTasksRun();
      if found.Some? {
        ReplaceWatchedTokens(found.value, tokens);
        return Existing(found.value);
      }
      outcome := CreateSession(session, tokens, now);
      if outcome.Existing? {
        OtherTasksRun();
        ReplaceWatchedTokens(outcome.generation, tokens);
      }
    }

    /** A refused subscribe changes nothing. */
    method Subscribe(session: Session) returns (generation: Option<nat>)
      modifies this`subscriptions
      ensures session in old(subscriptions) ==>
                generation == Some(old(subscriptions)[session].generation)
                  && subscriptions == Joined(old(subscriptions), session)
      ensures session !in old(subscriptions) ==> generation == None && subscriptions == old(subscriptions)
      ensures session in old(subscriptions) ==>
                var before, after := old(subscriptions)[session], subscriptions[session];
                && after.generation == before.generation && after.idleSince == None
                && after.clients == (if before.clients == U32_MAX then before.clients else before.clients + 1)
                && subscriptions == old(subscriptions)[session := after]
    {
      if session !in subscriptions {
        return None;
      }
      var existing := subscriptions[session];
      existing := existing.(clients := if existing.clients == U32_MAX then U32_MAX else existing.clients + 1);
      existing := existing.(idleSince := None);
      subscriptions := subscriptions[session := existing];
      generation := Some(existing.generation);
    }

    /** `None` is the error: not registered, or the counter would underflow. */
    method Unsubscribe(session: Session, now: nat) returns (wasLast: Option<bool>)
      modifies this`subscriptions
      ensures session in old(subscriptions) && old(subscriptions)[session].clients >= 1 ==>
                && wasLast == Some(old(subscriptions)[session].clients == 1)
                && subscriptions == Departed(old(subscriptions), session, now)
      ensures !(session in old(subscriptions) && old(subscriptions)[session].clients >= 1) ==>
                wasLast == None && subscriptions == old(subscriptions)
      ensures session in old(subscriptions) && old(subscriptions)[session].clients >= 1 ==>
                var before, after := old(subscriptions)[session], subscriptions[session];
                && after.generation == before.generation && after.clients == before.clients - 1
                && after.idleSince == (if before.clients == 1 then Some(now) else before.idleSince)
                && subscriptions == old(subscriptions)[session := after]
    {
      if session !in subscriptions || subscriptions[session].clients == 0 {
        return None;
      }
      var existing := subscriptions[session];
      existing := existing.(clients := existing.clients - 1);
      if existing.clients == 0 {
        existing := existing.(idleSince := Some(now));
        wasLast := Some(true);
      } else {
        wasLast := Some(false);
      }
      subscriptions := subscriptions[session := existing];
    }

    /** `retain`, entry by entry: every expired session is cancelled and dropped, no other is touched. */
    method CleanupSubs(now: nat)
      modifies this`subscriptions, this`cancelled
      ensures subscriptions == Swept(old(subscriptions), now)
      ensures forall session :: session in subscriptions <==>
                && session in old(subscriptions)
                && !(&& old(subscriptions)[session].clients == 0 && old(subscriptions)[session].idleSince.Some?
                     && old(subscriptions)[session].idleSince.value + SESSION_TTL < now)
      ensures forall session :: session in subscriptions ==> subscriptions[session] == old(subscriptions)[session]
      ensures forall g :: g in cancelled <==>
                g in old(cancelled)
                || exists session :: session in old(subscriptions) && Expired(old(subscriptions)[session], now)
                                     && old(subscriptions)[session].generation == g
    {
      var rest := subscriptions.Keys;
      while rest != {}
        invariant rest <= old(subscriptions).Keys && rest <= subscriptions.Keys
        invariant forall session :: session in subscriptions <==>
                    session in old(subscriptions) && (session in rest || !Expired(old(subscriptions)[session], now))
        invariant forall session :: session in subscriptions ==> subscriptions[session] == old(subscriptions)[session]
        invariant forall g :: g in cancelled <==>
                    g in old(cancelled)
                    || exists session :: session in old(subscriptions) && session !in rest
                         && Expired(old(subscriptions)[session], now) && old(subscriptions)[session].generation == g
        decreases |rest|
      {
        var session :| session in rest;
        if Expired(subscriptions[session], now) {
          cancelled := cancelled + {subscriptions[session].generation};
          subscriptions := subscriptions - {session};
        }
        rest := rest - {session};
      }
    }

    /** At shutdown every registered session is told, and the map is emptied. */
    method CloseSseConnections()
      modifies this`subscriptions, this`closeEvents
      ensures subscriptions == map[]
      ensures multiset(closeEvents) == multiset(old(closeEvents)) + multiset(old(subscriptions).Keys)
    {
      var rest := subscriptions.Keys;
      while rest != {}
        invariant rest <= old(subscriptions).Keys && subscriptions == old(subscriptions)
        invariant multiset(closeEvents) + multiset(rest)
          == multiset(old(closeEvents)) + multiset(old(subscriptions).Keys)
        decreases |rest|
      {
        var session :| session in rest;
        closeEvents := closeEvents + [session];
        assert multiset(rest) == multiset(rest - {session}) + multiset{session};
        rest := rest - {session};
      }
      subscriptions := map[];
    }

    /**
     The routing lookup. The candidates are collected in one section; each one's watched set
     is then read on its own, with other tasks running before every read. Every session the
     owner had at the start is decided once, by its watched set of some moment of the call.
     */
    method OwnedQueuesWatching(owner: Address, token: Address) returns (queues: seq<nat>)
      requires Valid()
      modifies this
      ensures Valid() && old(created) <= created && old(versions) <= versions
      ensures forall i, j :: 0 <= i < j < |queues| ==> queues[i] != queues[j]
      ensures forall g :: g in queues ==>
                exists session :: session in old(subscriptions) && session.owner == owner
                                  && old(subscriptions)[session].generation == g
      ensures forall session :: session in old(subscriptions) && session.owner == owner ==>
                var g := old(subscriptions)[session].generation;
                exists k :: |old(versions)| - 1 <= k < |versions| && g in versions[k]
                            && (g in queues <==> token in versions[k][g])
    {
      var candidates := Generations(subscriptions, owner);
      assert forall g :: g in candidates ==> g < |created|;
      queues := [];
      while candidates != {}
        invariant Valid() && old(created) <= created && old(versions) <= versions
        invariant candidates <= Generations(old(subscriptions), owner)
        invariant forall i, j :: 0 <= i < j < |queues| ==> queues[i] != queues[j]
        invariant forall g :: g in queues ==> g in Generations(old(subscriptions), owner) - candidates
        invariant forall g :: g in Generations(old(subscriptions), owner) - candidates ==>
                    DecidedBetween(versions, |old(versions)| - 1, g, token, g in queues)
        decreases |candidates|
      {
        var generation :| generation in candidates;
        ghost var before, found := versions, queues;
        OtherTasksRun();
        DecidedStays(before, versions, |old(versions)| - 1, token,
          Generations(old(subscriptions), owner) - candidates, found);
        if token in watched[generation] {
          queues := queues + [generation];
        }
        assert versions[|versions| - 1][generation] == watched[generation];
        candidates := candidates - {generation};
      }
      forall session | session in old(subscriptions) && session.owner == owner
        ensures DecidedBetween(versions, |old(versions)| - 1, old(subscriptions)[session].generation, token,
                               old(subscriptions)[session].generation in queues)
      {
        assert old(subscriptions)[session].generation in Generations(old(subscriptions), owner);
      }
    }
  }

  /** The owner's subscriptions in the map. */
  function Generations(subs: Registry, owner: Address): set<nat> {
    set session | session in subs && session.owner == owner :: subs[session].generation
  }

  /** At one of the versions from `lo` on, the generation watches the token exactly if `watching`. */
  ghost predicate DecidedBetween(versions: seq<map<nat, set<Address>>>, lo: nat, g: nat, token: Address,
                                 watching: bool) {
    exists k :: lo <= k < |versions| && g in versions[k] && (watching <==> token in versions[k][g])
  }

  lemma DecidedStays(before: seq<map<nat, set<Address>>>, after: seq<map<nat, set<Address>>>, lo: nat, token: Address,
                     decided: set<nat>, queues: seq<nat>)
    requires before <= after
    requires forall g :: g in decided ==> DecidedBetween(before, lo, g, token, g in queues)
    ensures forall g :: g in decided ==> DecidedBetween(after, lo, g, token, g in queues)
  {
    forall g | g in decided ensures DecidedBetween(after, lo, g, token, g in queues) {
      var k :| lo <= k < |before| && g in before[k] && (g in queues <==> token in before[k][g]);
      assert after[k] == before[k];
    }
  }
}
