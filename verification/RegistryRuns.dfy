/**
 The registry under every interleaving of its lock sections: two-phase upserts by any
 number of tasks, subscribes, unsubscribes, sweeps on the TTL clock, queue errors that
 cancel a session behind the registry's back, and shutdown.
 */
module RegistryRuns {
  import opened Domain
  import opened SubscriptionManager

  /** Where a task is inside `upsert`. */
  datatype Upserting =
    | Missed(session: Session, tokens: set<Address>)    // read lock released without finding the session
    | Applying(generation: nat, tokens: set<Address>)   // about to replace the watched set

  /** A subscribe that was answered: the session asked for and the generation joined. */
  datatype Membership = Membership(session: Session, generation: nat)

  datatype State = State(
    now: nat, nextSweep: nat,
    subs: Registry,
    created: seq<Session>,            // by generation; one queue receiver was handed out with each
    cancelled: set<nat>,
    removed: set<nat>,                // generations no longer in the map
    watched: map<nat, set<Address>>,
    upserts: map<nat, Upserting>,     // by task
    members: map<nat, Membership>,    // by subscribe; a handler that dies early stays here for good
    shutdown: bool, closed: bool
  )

  const INIT := State(0, 0, map[], [], {}, {}, map[], map[], map[], false, false)

  datatype Event =
    | Advance(time: nat)
    | UpsertRead(task: nat, session: Session, tokens: set<Address>)
    | UpsertWrite(task: nat)
    | UpsertApply(task: nat)
    | Subscribe(member: nat, session: Session)
    | Unsubscribe(member: nat)
    | Sweep
    | QueueError(generation: nat)
    | Shutdown
    | CloseAll

  /** The second lock section of an upsert. */
  function Write(s: State, task: nat, pending: Upserting): State
    requires pending.Missed?
  {
    match Decide(s.subs, pending.session, |s.created|)
    case Existing(generation) => s.(upserts := s.upserts[task := Applying(generation, pending.tokens)])
    case Created(generation) =>
      s.(subs := Inserted(s.subs, pending.session, Created(generation), s.now),
         created := s.created + [pending.session], watched := s.watched[generation := pending.tokens],
         upserts := s.upserts - {task})
    case OwnerClientLimitExceeded => s.(upserts := s.upserts - {task})
  }

  /** Generations dropped from the map by going from `subs` to `kept`. */
  function Dropped(subs: Registry, kept: Registry): set<nat> {
    set session | session in subs && session !in kept :: subs[session].generation
  }

  /** One lock section; an event that is not possible changes nothing. */
  function Step(s: State, e: Event): State {
    match e
    case Advance(time) => if s.now + time <= s.nextSweep || s.shutdown then s.(now := s.now + time) else s
    case UpsertRead(task, session, tokens) =>
      if task in s.upserts then s
      else if session in s.subs then s.(upserts := s.upserts[task := Applying(s.subs[session].generation, tokens)])
      else s.(upserts := s.upserts[task := Missed(session, tokens)])
    case UpsertWrite(task) =>
      if task in s.upserts && s.upserts[task].Missed? then Write(s, task, s.upserts[task]) else s
    case UpsertApply(task) =>
      if task in s.upserts && s.upserts[task].Applying? then
        s.(watched := s.watched[s.upserts[task].generation := s.upserts[task].tokens], upserts := s.upserts - {task})
      else s
    case Subscribe(member, session) =>
      if member !in s.members && session in s.subs then
        s.(subs := Joined(s.subs, session),
           members := s.members[member := Membership(session, s.subs[session].generation)])
      else s
    case Unsubscribe(member) =>
      if member !in s.members then s
      else
        var session := s.members[member].session;
        var t := s.(members := s.members - {member});
        if session in s.subs && s.subs[session].clients >= 1 then t.(subs := Departed(s.subs, session, s.now)) else t
    case Sweep =>
      if s.now == s.nextSweep && !s.closed then
        var kept := Swept(s.subs, s.now);
        s.(subs := kept, nextSweep := s.now + SESSION_TTL,
           cancelled := s.cancelled + Dropped(s.subs, kept), removed := s.removed + Dropped(s.subs, kept))
      else s
    case QueueError(generation) => if generation < |s.created| then s.(cancelled := s.cancelled + {generation}) else s
    case Shutdown => s.(shutdown := true)
    case CloseAll =>
      if s.shutdown then s.(subs := map[], removed := s.removed + Dropped(s.subs, map[]), closed := true) else s
  }

  function Run(events: seq<Event>): State {
    if events == [] then INIT else Step(Run(events[..|events| - 1]), events[|events| - 1])
  }

  // ----- creation -----

  /** A subscription's token fires on its own cancellation or with the process-wide token. */
  predicate IsCancelled(s: State, generation: nat) {
    generation in s.cancelled || s.shutdown
  }

  predicate IsRegistered(s: State, generation: nat)
    requires generation < |s.created|
  {
    s.created[generation] in s.subs && s.subs[s.created[generation]].generation == generation
  }

  ghost predicate CreationInv(s: State) {
    && (forall session :: session in s.subs ==>
          s.subs[session].generation < |s.created| && s.created[s.subs[session].generation] == session)
    && (forall g: nat :: g < |s.created| ==> (IsRegistered(s, g) <==> g !in s.removed))
    && (forall g :: g in s.removed ==> g < |s.created| && IsCancelled(s, g))
    && (forall owner :: |OwnedBy(s.subs, owner)| <= MAX_CLIENTS_PER_OWNER)
    && UpsertsKnown(s.upserts, |s.created|)
    && (forall g: nat :: g in s.watched <==> g < |s.created|)
  }

  lemma SmallerOwned(subs: Registry, kept: Registry, owner: Address)
    requires kept.Keys <= subs.Keys && |OwnedBy(subs, owner)| <= MAX_CLIENTS_PER_OWNER
    ensures |OwnedBy(kept, owner)| <= MAX_CLIENTS_PER_OWNER
  {
    CardinalityOfSubset(OwnedBy(kept, owner), OwnedBy(subs, owner));
  }

  lemma CardinalityOfSubset<T>(a: set<T>, b: set<T>)
    requires a <= b
    ensures |a| <= |b|
  {
    assert b == a + (b - a);
  }

  /** A fresh generation for an absent session of an owner below the cap. */
  ghost predicate Inserts(s: State, t: State, session: Session) {
    && session !in s.subs && |OwnedBy(s.subs, session.owner)| < MAX_CLIENTS_PER_OWNER
    && t.subs == s.subs[session := SubWithCounter(|s.created|, 0, Some(s.now))]
    && t.created == s.created + [session] && t.removed == s.removed
    && t.cancelled == s.cancelled && t.shutdown == s.shutdown
    && t.watched.Keys == s.watched.Keys + {|s.created|}
    && forall task :: task in t.upserts ==> task in s.upserts && t.upserts[task] == s.upserts[task]
  }

  lemma InsertKeepsCap(s: State, t: State, session: Session, owner: Address)
    requires Inserts(s, t, session) && |OwnedBy(s.subs, owner)| <= MAX_CLIENTS_PER_OWNER
    ensures |OwnedBy(t.subs, owner)| <= MAX_CLIENTS_PER_OWNER
  {
    if owner == session.owner {
      assert OwnedBy(t.subs, owner) == OwnedBy(s.subs, owner) + {session};
    } else {
      assert OwnedBy(t.subs, owner) == OwnedBy(s.subs, owner);
    }
  }

  lemma InsertKeepsCreation(s: State, t: State, session: Session)
    requires CreationInv(s) && Inserts(s, t, session)
    ensures CreationInv(t)
  {
    forall owner ensures |OwnedBy(t.subs, owner)| <= MAX_CLIENTS_PER_OWNER {
      InsertKeepsCap(s, t, session, owner);
    }
    forall g: nat | g < |t.created| ensures IsRegistered(t, g) <==> g !in t.removed {
      if g < |s.created| {
        assert IsRegistered(s, g) <==> g !in s.removed;
        assert t.created[g] == s.created[g];
      }
    }
  }

  /** Dropping entries, cancelled or at shutdown, keeps the creation invariant. */
  lemma DropKeepsCreation(s: State, t: State)
    requires CreationInv(s)
    requires t.subs.Keys <= s.subs.Keys && forall session :: session in t.subs ==> t.subs[session] == s.subs[session]
    requires t.created == s.created && t.watched == s.watched && t.upserts == s.upserts
    requires t.removed == s.removed + Dropped(s.subs, t.subs)
    requires s.cancelled <= t.cancelled && t.shutdown == s.shutdown
    requires t.shutdown || Dropped(s.subs, t.subs) <= t.cancelled
    ensures CreationInv(t)
  {
    forall owner ensures |OwnedBy(t.subs, owner)| <= MAX_CLIENTS_PER_OWNER {
      SmallerOwned(s.subs, t.subs, owner);
    }
    forall g: nat | g < |t.created| ensures IsRegistered(t, g) <==> g !in t.removed {
      assert IsRegistered(s, g) <==> g !in s.removed;
      var session := s.created[g];
      if IsRegistered(s, g) && session !in t.subs {
        assert g in Dropped(s.subs, t.subs);
      }
    }
  }

  /** Entries may be rewritten in place, but every generation stays where it is. */
  ghost predicate Updates(s: State, t: State) {
    && t.subs.Keys == s.subs.Keys
    && (forall session :: session in t.subs ==> t.subs[session].generation == s.subs[session].generation)
    && t.created == s.created && t.watched.Keys == s.watched.Keys && t.removed == s.removed
    && s.cancelled <= t.cancelled && (s.shutdown ==> t.shutdown)
    && UpsertsKnown(t.upserts, |t.created|)
  }

  ghost predicate UpsertsKnown(upserts: map<nat, Upserting>, count: nat) {
    forall task :: task in upserts && upserts[task].Applying? ==> upserts[task].generation < count
  }

  lemma UpdateKeepsCreation(s: State, t: State)
    requires CreationInv(s) && Updates(s, t)
    ensures CreationInv(t)
  {
    forall owner ensures |OwnedBy(t.subs, owner)| <= MAX_CLIENTS_PER_OWNER {
      assert OwnedBy(t.subs, owner) == OwnedBy(s.subs, owner);
    }
    forall g: nat | g < |t.created| ensures IsRegistered(t, g) <==> g !in t.removed {
      assert IsRegistered(s, g) <==> g !in s.removed;
    }
  }

  lemma JoinUpdates(s: State, e: Event)
    requires e.Subscribe? && UpsertsKnown(s.upserts, |s.created|)
    ensures Updates(s, Step(s, e))
  {
  }

  lemma LeaveUpdates(s: State, e: Event)
    requires e.Unsubscribe? && UpsertsKnown(s.upserts, |s.created|)
    ensures Updates(s, Step(s, e))
  {
  }

  lemma ReadUpdates(s: State, e: Event)
    requires e.UpsertRead? && UpsertsKnown(s.upserts, |s.created|)
    requires e.session in s.subs ==> s.subs[e.session].generation < |s.created|
    ensures Updates(s, Step(s, e))
  {
  }

  lemma ApplyUpdates(s: State, e: Event)
    requires e.UpsertApply? && UpsertsKnown(s.upserts, |s.created|)
    requires e.task in s.upserts && s.upserts[e.task].Applying? ==> s.upserts[e.task].generation in s.watched
    ensures Updates(s, Step(s, e))
  {
    var t := Step(s, e);
    if e.task in s.upserts && s.upserts[e.task].Applying? {
      assert t.watched.Keys == s.watched.Keys + {s.upserts[e.task].generation};
    }
  }

  lemma SignalUpdates(s: State, e: Event)
    requires e.Advance? || e.QueueError? || e.Shutdown?
    requires UpsertsKnown(s.upserts, |s.created|)
    ensures Updates(s, Step(s, e))
  {
  }

  lemma WriteKeepsCreation(s: State, task: nat, pending: Upserting)
    requires CreationInv(s) && pending.Missed?
    ensures CreationInv(Write(s, task, pending))
  {
    if Decide(s.subs, pending.session, |s.created|).Created? {
      WriteInserts(s, task, pending);
      InsertKeepsCreation(s, Write(s, task, pending), pending.session);
    } else {
      WriteUpdates(s, task, pending);
      UpdateKeepsCreation(s, Write(s, task, pending));
    }
  }

  lemma WriteInserts(s: State, task: nat, pending: Upserting)
    requires pending.Missed? && Decide(s.subs, pending.session, |s.created|).Created?
    ensures Inserts(s, Write(s, task, pending), pending.session)
  {
  }

  lemma WriteUpdates(s: State, task: nat, pending: Upserting)
    requires pending.Missed? && !Decide(s.subs, pending.session, |s.created|).Created?
    requires forall session :: session in s.subs ==> s.subs[session].generation < |s.created|
    requires UpsertsKnown(s.upserts, |s.created|)
    ensures Updates(s, Write(s, task, pending))
  {
  }

  lemma DropStepKeepsCreation(s: State, e: Event)
    requires CreationInv(s) && (e.Sweep? || e.CloseAll?)
    ensures CreationInv(Step(s, e))
  {
    if Step(s, e) != s {
      DropKeepsCreation(s, Step(s, e));
    }
  }

  lemma StepKeepsCreation(s: State, e: Event)
    requires CreationInv(s)
    ensures CreationInv(Step(s, e))
  {
    if e.UpsertWrite? {
      if e.task in s.upserts && s.upserts[e.task].Missed? {
        WriteKeepsCreation(s, e.task, s.upserts[e.task]);
      }
    } else if e.Sweep? || e.CloseAll? {
      DropStepKeepsCreation(s, e);
    } else {
      if e.Subscribe? {
        JoinUpdates(s, e);
      } else if e.Unsubscribe? {
        LeaveUpdates(s, e);
      } else if e.UpsertRead? {
        ReadUpdates(s, e);
      } else if e.UpsertApply? {
        ApplyUpdates(s, e);
      } else {
        SignalUpdates(s, e);
      }
      UpdateKeepsCreation(s, Step(s, e));
    }
  }

  lemma {:induction false} RunKeepsCreation(events: seq<Event>)
    ensures CreationInv(Run(events))
  {
    if events == [] {
      forall owner ensures |OwnedBy(INIT.subs, owner)| <= MAX_CLIENTS_PER_OWNER {
        assert OwnedBy(INIT.subs, owner) == {};
      }
    } else {
      RunKeepsCreation(events[..|events| - 1]);
      StepKeepsCreation(Run(events[..|events| - 1]), events[|events| - 1]);
    }
  }

  /** Of two generations of one session the older is gone. */
  ghost predicate OlderGone(s: State) {
    forall g: nat, h: nat :: g < h < |s.created| && s.created[g] == s.created[h] ==> g in s.removed
  }

  lemma RemovalIsFinal(s: State, e: Event)
    ensures s.removed <= Step(s, e).removed
  {
    match e
    case UpsertWrite(task) =>
      if task in s.upserts && s.upserts[task].Missed? {
        WriteKeepsRemoved(s, task, s.upserts[task]);
      }
    case _ =>
  }

  lemma {:induction false} OlderAreGone(events: seq<Event>)
    ensures OlderGone(Run(events))
  {
    if events != [] {
      var earlier, e := events[..|events| - 1], events[|events| - 1];
      var s := Run(earlier);
      OlderAreGone(earlier);
      OneReceiverPerGeneration(earlier, e);
      RemovalIsFinal(s, e);
    }
  }

  /**
   Creation under races. Every subscription ever created is registered or cancelled, never
   lost; of any two generations of one session the older was removed and cancelled, whatever
   became of the younger; and no owner exceeds the cap.
   */
  lemma CreationIsSound(events: seq<Event>)
    ensures var s := Run(events);
            && (forall g: nat :: g < |s.created| ==> IsRegistered(s, g) || IsCancelled(s, g))
            && (forall g: nat, h: nat :: g < h < |s.created| && s.created[g] == s.created[h] ==>
                  g in s.removed && !IsRegistered(s, g) && IsCancelled(s, g))
            && (forall owner :: |OwnedBy(s.subs, owner)| <= MAX_CLIENTS_PER_OWNER)
  {
    RunKeepsCreation(events);
    OlderAreGone(events);
  }

  /**
   A receiver is handed out exactly when a session that is absent is created, so racing
   upserts for one session share one: creating it again takes a removal in between.
   */
  lemma OneReceiverPerGeneration(events: seq<Event>, e: Event)
    ensures var s, t := Run(events), Step(Run(events), e);
            t.created != s.created ==>
              && e.UpsertWrite? && e.task in s.upserts && s.upserts[e.task].Missed?
              && t.created == s.created + [s.upserts[e.task].session]
              && (forall g: nat :: g < |s.created| && s.created[g] == s.upserts[e.task].session ==> g in s.removed)
              && IsRegistered(t, |s.created|)
  {
    RunKeepsCreation(events);
    var s := Run(events);
    if e.UpsertWrite? {
      if e.task in s.upserts && s.upserts[e.task].Missed? {
        WriteCreates(s, e.task, s.upserts[e.task]);
      }
    } else {
      OnlyWritesCreate(s, e);
    }
  }

  lemma OnlyWritesCreate(s: State, e: Event)
    requires !e.UpsertWrite?
    ensures Step(s, e).created == s.created
  {
  }

  lemma WriteCreates(s: State, task: nat, pending: Upserting)
    requires CreationInv(s) && pending.Missed?
    ensures var t := Write(s, task, pending);
            t.created != s.created ==>
              && t.created == s.created + [pending.session]
              && (forall g: nat :: g < |s.created| && s.created[g] == pending.session ==> g in s.removed)
              && IsRegistered(t, |s.created|)
  {
    forall g: nat | g < |s.created| && s.created[g] == pending.session && g !in s.removed
      ensures pending.session in s.subs
    {
      assert IsRegistered(s, g);
    }
  }

  /**
   What the write section of an upsert that had missed its session does: a session that has
   appeared meanwhile is used, an absent one is created exactly while its owner is below the
   cap, and a refusal changes nothing.
   */
  lemma WriteOutcome(s: State, task: nat)
    requires task in s.upserts && s.upserts[task].Missed?
    ensures var t, session, tokens := Step(s, UpsertWrite(task)), s.upserts[task].session, s.upserts[task].tokens;
            var owned := |set other | other in s.subs && other.owner == session.owner|;
            if session in s.subs then
              t == s.(upserts := s.upserts[task := Applying(s.subs[session].generation, tokens)])
            else if owned < MAX_CLIENTS_PER_OWNER then
              && t.created == s.created + [session] && t.watched == s.watched[|s.created| := tokens]
              && t.subs == s.subs[session := SubWithCounter(|s.created|, 0, Some(s.now))] && task !in t.upserts
            else
              t == s.(upserts := s.upserts - {task})
  {
    var session := s.upserts[task].session;
    assert OwnedBy(s.subs, session.owner) == set other | other in s.subs && other.owner == session.owner;
  }

  /** The first lock section finds the session or not; the last one puts the tokens in force. */
  lemma ReadAndApplyOutcome(s: State, task: nat, session: Session, tokens: set<Address>)
    ensures task !in s.upserts ==>
              Step(s, UpsertRead(task, session, tokens)) ==
                s.(upserts := s.upserts[task := if session in s.subs then Applying(s.subs[session].generation, tokens)
                                                else Missed(session, tokens)])
    ensures task in s.upserts && s.upserts[task].Applying? ==>
              var t := Step(s, UpsertApply(task));
              t.watched == s.watched[s.upserts[task].generation := s.upserts[task].tokens] && task !in t.upserts
  {
  }

  /** A subscribe to a registered session is one more client and ends its idleness; to another it changes nothing. */
  lemma JoinOutcome(s: State, member: nat, session: Session)
    requires member !in s.members
    ensures var t := Step(s, Subscribe(member, session));
            if session !in s.subs then t == s
            else
              var entry := s.subs[session];
              && t.members == s.members[member := Membership(session, entry.generation)]
              && t.subs == s.subs[session := SubWithCounter(entry.generation,
                                                            if entry.clients == U32_MAX then U32_MAX
                                                              else entry.clients + 1,
                                                            None)]
  {
  }

  /** An unsubscribe takes one client from the session joined, and the last one starts its idle clock. */
  lemma LeaveOutcome(s: State, member: nat)
    requires member in s.members
    ensures var t, session := Step(s, Unsubscribe(member)), s.members[member].session;
            && t.members == s.members - {member}
            && if session !in s.subs || s.subs[session].clients == 0 then t.subs == s.subs
               else
                 var entry := s.subs[session];
                 t.subs == s.subs[session := SubWithCounter(entry.generation, entry.clients - 1,
                                                            if entry.clients == 1 then Some(s.now)
                                                              else entry.idleSince)]
  {
  }

  /** A sweep on its tick drops and cancels exactly the sessions without clients for more than the TTL. */
  lemma SweepOutcome(s: State)
    requires s.now == s.nextSweep && !s.closed
    ensures var t := Step(s, Sweep);
            && t.nextSweep == s.now + SESSION_TTL
            && (forall session :: session in s.subs ==>
                  var entry := s.subs[session];
                  if entry.clients == 0 && entry.idleSince.Some? && entry.idleSince.value + SESSION_TTL < s.now then
                    session !in t.subs && entry.generation in t.cancelled && entry.generation in t.removed
                  else
                    session in t.subs && t.subs[session] == entry)
            && (forall session :: session in t.subs ==> session in s.subs)
  {
  }

  /** A queue error cancels a session and leaves it registered: registered does not imply running. */
  lemma RegisteredMayBeCancelled(session: Session)
    ensures var s := Run(Creating(session) + [QueueError(0)]);
            |s.created| == 1 && IsRegistered(s, 0) && 0 in s.cancelled
  {
    CreateOne(session);
    RunAppend(Creating(session), QueueError(0));
    FailStep(OneSession(session), 0);
  }

  lemma FailStep(s: State, g: nat)
    requires g < |s.created|
    ensures Step(s, QueueError(g)) == s.(cancelled := s.cancelled + {g})
  {
  }

  /** A queue error hit the generation while it existed. */
  ghost predicate QueueFailed(events: seq<Event>, g: nat) {
    exists i :: 0 <= i < |events| && events[i] == QueueError(g) && g < |Run(events[..i]).created|
  }

  lemma QueueFailedAppend(events: seq<Event>, e: Event, g: nat)
    ensures QueueFailed(events + [e], g) <==>
      QueueFailed(events, g) || (e == QueueError(g) && g < |Run(events).created|)
  {
    var all := events + [e];
    assert all[..|events|] == events;
    forall i | 0 <= i < |events| ensures all[i] == events[i] && all[..i] == events[..i] {
    }
    if QueueFailed(events, g) {
      var i :| 0 <= i < |events| && events[i] == QueueError(g) && g < |Run(events[..i]).created|;
      assert all[i] == QueueError(g);
    }
    if e == QueueError(g) {
      assert all[|events|] == QueueError(g);
    }
  }

  /** Only a queue error and a sweep add to the cancelled, and a sweep removes what it cancels. */
  lemma CancelledStep(s: State, e: Event, g: nat)
    ensures var t := Step(s, e);
            && s.cancelled <= t.cancelled
            && (e == QueueError(g) && g < |s.created| ==> g in t.cancelled)
            && (g in t.cancelled ==> g in s.cancelled || (e == QueueError(g) && g < |s.created|) || g in t.removed)
  {
    match e
    case UpsertWrite(task) =>
      if task in s.upserts && s.upserts[task].Missed? {
        WriteKeepsRemoved(s, task, s.upserts[task]);
      }
    case _ =>
  }

  lemma WriteKeepsRemoved(s: State, task: nat, pending: Upserting)
    requires pending.Missed?
    ensures Write(s, task, pending).removed == s.removed && Write(s, task, pending).cancelled == s.cancelled
  {
  }

  lemma {:induction false} CancelledRun(events: seq<Event>, g: nat)
    ensures var s := Run(events);
            && (QueueFailed(events, g) ==> g in s.cancelled)
            && (g in s.cancelled ==> QueueFailed(events, g) || g in s.removed)
  {
    if events != [] {
      var earlier, e := events[..|events| - 1], events[|events| - 1];
      assert events == earlier + [e];
      CancelledRun(earlier, g);
      CancelledStep(Run(earlier), e, g);
      RemovalIsFinal(Run(earlier), e);
      QueueFailedAppend(earlier, e, g);
    }
  }

  /** Exactly when a registered session is not running: shutdown has been signalled, or its own queue has failed. */
  lemma CancelledExactly(events: seq<Event>, g: nat)
    requires g < |Run(events).created| && IsRegistered(Run(events), g)
    ensures IsCancelled(Run(events), g) <==> Run(events).shutdown || QueueFailed(events, g)
  {
    RunKeepsCreation(events);
    CancelledRun(events, g);
  }

  function Creating(session: Session): seq<Event> {
    [UpsertRead(0, session, {}), UpsertWrite(0)]
  }

  /** One session, created at time 0 and nothing else. */
  function OneSession(session: Session): State {
    INIT.(subs := map[session := SubWithCounter(0, 0, Some(0))], created := [session], watched := map[0 := {}])
  }

  lemma CreateOne(session: Session)
    ensures Run(Creating(session)) == OneSession(session)
  {
    var e0, e1 := UpsertRead(0, session, {}), UpsertWrite(0);
    RunAppend([], e0);
    RunAppend([] + [e0], e1);
    assert Creating(session) == [] + [e0] + [e1];
    var s1 := Run([] + [e0]);
    assert OwnedBy(s1.subs, session.owner) == {};
    assert map[0 := Missed(session, {})] - {0} == map[];
  }

  // ----- client accounting -----

  function MembersOf(members: map<nat, Membership>, session: Session): set<nat> {
    set member | member in members && members[member].session == session
  }

  ghost predicate AccountingInv(s: State) {
    !s.closed ==>
      && (forall member :: member in s.members ==>
            && s.members[member].session in s.subs
            && s.subs[s.members[member].session].generation == s.members[member].generation)
      && (forall session :: session in s.subs ==>
            && s.subs[session].clients == |MembersOf(s.members, session)|
            && (s.subs[session].clients == 0 <==> s.subs[session].idleSince.Some?))
  }

  lemma MembersAfterJoin(members: map<nat, Membership>, member: nat, joined: Membership, session: Session)
    requires member !in members
    ensures |MembersOf(members[member := joined], session)|
         == |MembersOf(members, session)| + if session == joined.session then 1 else 0
  {
    var after := MembersOf(members[member := joined], session);
    if session == joined.session {
      assert after == MembersOf(members, session) + {member};
    } else {
      assert after == MembersOf(members, session);
    }
  }

  /** A subscribe that finds the 32-bit counter of its session full. */
  predicate Saturates(s: State, e: Event) {
    && !s.closed && e.Subscribe? && e.member !in s.members && e.session in s.subs
    && s.subs[e.session].clients == U32_MAX
  }

  lemma JoinKeepsAccounting(s: State, member: nat, session: Session)
    requires AccountingInv(s)
    ensures AccountingInv(Step(s, Subscribe(member, session))) <==> !Saturates(s, Subscribe(member, session))
  {
    if !s.closed && member !in s.members && session in s.subs {
      var joined := Membership(session, s.subs[session].generation);
      var t := s.(subs := Joined(s.subs, session), members := s.members[member := joined]);
      assert Step(s, Subscribe(member, session)) == t;
      MembersAfterJoin(s.members, member, joined, session);
      if s.subs[session].clients == U32_MAX {
        assert t.subs[session].clients != |MembersOf(t.members, session)|;
      } else {
        JoinCounts(s, t, member, session);
      }
    }
  }

  lemma JoinCounts(s: State, t: State, member: nat, session: Session)
    requires AccountingInv(s) && !s.closed && member !in s.members
    requires session in s.subs && s.subs[session].clients != U32_MAX
    requires t == s.(subs := Joined(s.subs, session),
                     members := s.members[member := Membership(session, s.subs[session].generation)])
    ensures AccountingInv(t)
  {
    forall other | other in t.subs
      ensures t.subs[other].clients == |MembersOf(t.members, other)|
      ensures t.subs[other].clients == 0 <==> t.subs[other].idleSince.Some?
    {
      MembersAfterJoin(s.members, member, t.members[member], other);
    }
  }

  lemma MembersAfterLeave(members: map<nat, Membership>, member: nat, session: Session)
    requires member in members
    ensures |MembersOf(members - {member}, session)|
         == |MembersOf(members, session)| - if session == members[member].session then 1 else 0
    ensures session == members[member].session ==> |MembersOf(members, session)| >= 1
  {
    var after := MembersOf(members - {member}, session);
    if session == members[member].session {
      assert MembersOf(members, session) == after + {member};
    } else {
      assert after == MembersOf(members, session);
    }
  }

  lemma LeaveKeepsAccounting(s: State, member: nat)
    requires AccountingInv(s)
    ensures AccountingInv(Step(s, Unsubscribe(member)))
  {
    var t := Step(s, Unsubscribe(member));
    if !s.closed && member in s.members {
      MembersAfterLeave(s.members, member, s.members[member].session);
      forall other | other in t.subs
        ensures t.subs[other].clients == |MembersOf(t.members, other)|
        ensures t.subs[other].clients == 0 <==> t.subs[other].idleSince.Some?
      {
        MembersAfterLeave(s.members, member, other);
      }
    }
  }

  lemma WriteKeepsMembers(s: State, task: nat, pending: Upserting)
    requires pending.Missed?
    ensures var t := Write(s, task, pending);
            && t.members == s.members && t.closed == s.closed && t.shutdown == s.shutdown
            && t.now == s.now && t.nextSweep == s.nextSweep
            && t.subs == Inserted(s.subs, pending.session, Decide(s.subs, pending.session, |s.created|), s.now)
  {
  }

  lemma WriteKeepsAccounting(s: State, task: nat, pending: Upserting)
    requires AccountingInv(s) && pending.Missed?
    ensures AccountingInv(Write(s, task, pending))
  {
    WriteKeepsMembers(s, task, pending);
    if !s.closed && pending.session !in s.subs {
      assert MembersOf(s.members, pending.session) == {};
    }
  }

  lemma SweepKeepsAccounting(s: State)
    requires AccountingInv(s)
    ensures AccountingInv(Step(s, Sweep))
  {
    if !s.closed {
      forall member | member in s.members ensures !Expired(s.subs[s.members[member].session], s.now) {
        assert member in MembersOf(s.members, s.members[member].session);
      }
    }
  }

  lemma QuietKeepsClients(s: State, e: Event)
    requires !e.Subscribe? && !e.Unsubscribe? && !e.UpsertWrite? && !e.Sweep?
    ensures Step(s, e).closed || (Step(s, e).subs == s.subs && Step(s, e).members == s.members && !s.closed)
  {
    match e
    case CloseAll =>
    case _ =>
  }

  /** The saturating increment is the one step that can make a counter wrong. */
  lemma StepKeepsAccounting(s: State, e: Event)
    requires AccountingInv(s)
    ensures AccountingInv(Step(s, e)) <==> !Saturates(s, e)
  {
    if e.Subscribe? {
      JoinKeepsAccounting(s, e.member, e.session);
    } else if e.Unsubscribe? {
      LeaveKeepsAccounting(s, e.member);
    } else if e.Sweep? {
      SweepKeepsAccounting(s);
    } else if e.UpsertWrite? {
      if e.task in s.upserts && s.upserts[e.task].Missed? {
        WriteKeepsAccounting(s, e.task, s.upserts[e.task]);
      }
    } else {
      QuietKeepsClients(s, e);
    }
  }

  ghost predicate NeverSaturates(events: seq<Event>) {
    forall i :: 0 <= i < |events| ==> !Saturates(Run(events[..i]), events[i])
  }

  ghost predicate AlwaysCounted(events: seq<Event>) {
    forall i :: 0 <= i <= |events| ==> AccountingInv(Run(events[..i]))
  }

  /** The books are right all along a run exactly if no subscribe of it finds a full counter. */
  lemma {:induction false} AccountingIsExact(events: seq<Event>)
    ensures AlwaysCounted(events) <==> NeverSaturates(events)
  {
    if NeverSaturates(events) {
      forall i | 0 <= i <= |events| ensures AccountingInv(Run(events[..i])) {
        forall j | 0 <= j < |events[..i]| ensures !Saturates(Run(events[..i][..j]), events[..i][j]) {
          assert events[..i][..j] == events[..j];
        }
        RunKeepsAccounting(events[..i]);
      }
    }
    if AlwaysCounted(events) {
      forall i | 0 <= i < |events| ensures !Saturates(Run(events[..i]), events[i]) {
        assert events[..i + 1] == events[..i] + [events[i]];
        RunAppend(events[..i], events[i]);
        StepKeepsAccounting(Run(events[..i]), events[i]);
      }
    }
  }

  lemma {:induction false} RunKeepsAccounting(events: seq<Event>)
    requires NeverSaturates(events)
    ensures AccountingInv(Run(events))
  {
    if events != [] {
      var earlier := events[..|events| - 1];
      forall i | 0 <= i < |earlier| ensures !Saturates(Run(earlier[..i]), earlier[i]) {
        assert earlier[..i] == events[..i] && earlier[i] == events[i];
      }
      RunKeepsAccounting(earlier);
      StepKeepsAccounting(Run(earlier), events[|events| - 1]);
    }
  }

  lemma RoomIsLeft(s: State, e: Event)
    requires AccountingInv(s)
    requires e.Subscribe? ==> |MembersOf(Step(s, e).members, e.session)| <= U32_MAX
    ensures !Saturates(s, e)
  {
    if e.Subscribe? && e.member !in s.members && e.session in s.subs {
      MembersAfterJoin(s.members, e.member, Membership(e.session, s.subs[e.session].generation), e.session);
    }
  }

  /** In particular, the books are right while no session has more than 2^32 - 1 subscribers outstanding. */
  lemma {:induction false} FewSubscribersNeverSaturate(events: seq<Event>)
    requires forall i, session :: 0 <= i <= |events| ==> |MembersOf(Run(events[..i]).members, session)| <= U32_MAX
    ensures NeverSaturates(events)
  {
    if events != [] {
      var earlier, e := events[..|events| - 1], events[|events| - 1];
      forall i, session | 0 <= i <= |earlier| ensures |MembersOf(Run(earlier[..i]).members, session)| <= U32_MAX {
        assert earlier[..i] == events[..i];
      }
      FewSubscribersNeverSaturate(earlier);
      RunKeepsAccounting(earlier);
      assert events[..|events|] == events == earlier + [e];
      RunAppend(earlier, e);
      if e.Subscribe? {
        assert |MembersOf(Run(events[..|events|]).members, e.session)| <= U32_MAX;
      }
      RoomIsLeft(Run(earlier), e);
      forall i | 0 <= i < |events| ensures !Saturates(Run(events[..i]), events[i]) {
        if i < |earlier| {
          assert earlier[..i] == events[..i] && earlier[i] == events[i];
        }
      }
    }
  }

  /**
   Client accounting, until shutdown closes the registry and as long as no subscribe finds a
   full 32-bit counter: the counter is subscribes minus unsubscribes, a session is idle
   exactly when it is zero, and every outstanding subscriber's generation is still the
   registered one - so no sweep takes it away, and its unsubscribe reaches it with a counter
   to spare.
   */
  lemma ClientsAreCounted(events: seq<Event>)
    requires NeverSaturates(events) && !Run(events).closed
    ensures var s := Run(events);
            && (forall session :: session in s.subs ==>
                  && s.subs[session].clients == |MembersOf(s.members, session)|
                  && (s.subs[session].clients == 0 <==> s.subs[session].idleSince.Some?))
            && (forall member :: member in s.members ==>
                  var joined := s.members[member];
                  && joined.session in s.subs && s.subs[joined.session].generation == joined.generation
                  && s.subs[joined.session].clients >= 1 && joined.generation !in s.removed)
  {
    RunKeepsAccounting(events);
    RunKeepsCreation(events);
    OutstandingIsKept(Run(events));
  }

  lemma OutstandingIsKept(s: State)
    requires AccountingInv(s) && CreationInv(s) && !s.closed
    ensures forall member :: member in s.members ==>
              var joined := s.members[member];
              s.subs[joined.session].clients >= 1 && joined.generation !in s.removed
  {
    forall member | member in s.members
      ensures s.subs[s.members[member].session].clients >= 1 && s.members[member].generation !in s.removed
    {
      assert member in MembersOf(s.members, s.members[member].session);
      assert IsRegistered(s, s.members[member].generation);
    }
  }

  /** One session and then `n` subscribes to it. */
  function Crowding(session: Session, n: nat): seq<Event> {
    if n == 0 then Creating(session) else Crowding(session, n - 1) + [Subscribe(n - 1, session)]
  }

  /** The session has `n` clients, whose subscribes are numbered below `n`, and the books are right. */
  ghost predicate Crowded(s: State, session: Session, n: nat) {
    && !s.closed && AccountingInv(s) && session in s.subs && s.subs[session].clients == n
    && forall member :: member in s.members ==> member < n
  }

  lemma CrowdJoins(s: State, session: Session, n: nat)
    requires Crowded(s, session, n) && n < U32_MAX
    ensures Crowded(Step(s, Subscribe(n, session)), session, n + 1)
  {
    JoinKeepsAccounting(s, n, session);
    var t := s.(subs := Joined(s.subs, session),
                members := s.members[n := Membership(session, s.subs[session].generation)]);
    assert Step(s, Subscribe(n, session)) == t;
  }

  lemma CrowdStarts(session: Session)
    ensures Crowded(OneSession(session), session, 0)
  {
    assert MembersOf(map[], session) == {};
  }

  lemma {:induction false} CrowdCounts(session: Session, n: nat)
    requires n <= U32_MAX
    ensures Crowded(Run(Crowding(session, n)), session, n)
  {
    if n == 0 {
      CreateOne(session);
      CrowdStarts(session);
    } else {
      var before := Crowding(session, n - 1);
      CrowdCounts(session, n - 1);
      CrowdJoins(Run(before), session, n - 1);
      RunAppend(before, Subscribe(n - 1, session));
    }
  }

  lemma FullCounterStays(s: State, session: Session, n: nat)
    requires Crowded(s, session, n) && n == U32_MAX
    ensures Saturates(s, Subscribe(n, session))
    ensures var t := Step(s, Subscribe(n, session));
            session in t.subs && t.subs[session].clients == U32_MAX && |MembersOf(t.members, session)| == U32_MAX + 1
  {
    MembersAfterJoin(s.members, n, Membership(session, s.subs[session].generation), session);
  }

  /**
   And saturation is reachable: after 2^32 - 1 subscribes the next one finds a full counter,
   and the books are wrong.
   */
  lemma SaturationMiscounts(session: Session, n: nat)
    requires n == U32_MAX
    ensures Saturates(Run(Crowding(session, n)), Subscribe(n, session))
    ensures var s := Run(Crowding(session, n) + [Subscribe(n, session)]);
            session in s.subs && s.subs[session].clients == U32_MAX && |MembersOf(s.members, session)| == U32_MAX + 1
    ensures !AlwaysCounted(Crowding(session, n) + [Subscribe(n, session)])
  {
    var before, e := Crowding(session, n), Subscribe(n, session);
    CrowdCounts(session, n);
    RunAppend(before, e);
    FullCounterStays(Run(before), session, n);
    SaturationShows(before, e);
  }

  lemma SaturationShows(before: seq<Event>, e: Event)
    requires Saturates(Run(before), e)
    ensures !AlwaysCounted(before + [e])
  {
    var after := before + [e];
    assert after[..|before|] == before && after[|before|] == e;
    AccountingIsExact(after);
  }

  // ----- reap timing -----

  ghost predicate TimeInv(s: State) {
    !s.shutdown ==>
      && s.now <= s.nextSweep <= s.now + SESSION_TTL
      && !s.closed
      && forall session :: session in s.subs && s.subs[session].idleSince.Some? ==>
           s.subs[session].idleSince.value <= s.now && s.nextSweep <= s.subs[session].idleSince.value + 2 * SESSION_TTL
  }

  /** Saturated or not, a counter is zero exactly when its session is idle. */
  ghost predicate IdleInv(s: State) {
    forall session :: session in s.subs ==> (s.subs[session].clients == 0 <==> s.subs[session].idleSince.Some?)
  }

  lemma StepKeepsIdle(s: State, e: Event)
    requires IdleInv(s)
    ensures IdleInv(Step(s, e))
  {
    if e.UpsertWrite? && e.task in s.upserts && s.upserts[e.task].Missed? {
      WriteKeepsMembers(s, e.task, s.upserts[e.task]);
    }
  }

  lemma UpsertKeepsTime(s: State, e: Event)
    requires TimeInv(s) && (e.UpsertRead? || e.UpsertWrite? || e.UpsertApply?)
    ensures TimeInv(Step(s, e))
  {
    if e.UpsertWrite? && e.task in s.upserts && s.upserts[e.task].Missed? {
      WriteKeepsMembers(s, e.task, s.upserts[e.task]);
    }
  }

  lemma ClientKeepsTime(s: State, e: Event)
    requires TimeInv(s) && (e.Subscribe? || e.Unsubscribe?)
    ensures TimeInv(Step(s, e))
  {
  }

  lemma ClockKeepsTime(s: State, e: Event)
    requires TimeInv(s) && IdleInv(s)
    requires e.Advance? || e.Sweep? || e.QueueError? || e.Shutdown? || e.CloseAll?
    ensures TimeInv(Step(s, e))
  {
  }

  lemma StepKeepsTime(s: State, e: Event)
    requires TimeInv(s) && IdleInv(s)
    ensures TimeInv(Step(s, e))
  {
    if e.UpsertRead? || e.UpsertWrite? || e.UpsertApply? {
      UpsertKeepsTime(s, e);
    } else if e.Subscribe? || e.Unsubscribe? {
      ClientKeepsTime(s, e);
    } else {
      ClockKeepsTime(s, e);
    }
  }

  lemma {:induction false} RunKeepsTime(events: seq<Event>)
    ensures TimeInv(Run(events)) && IdleInv(Run(events))
  {
    if events != [] {
      var s := Run(events[..|events| - 1]);
      RunKeepsTime(events[..|events| - 1]);
      StepKeepsTime(s, events[|events| - 1]);
      StepKeepsIdle(s, events[|events| - 1]);
    }
  }

  /** Nothing but a sweep that finds it expired, or the shutdown, takes a session out of the registry. */
  lemma OnlySweepsRemove(s: State, e: Event, session: Session)
    requires session in s.subs && session !in Step(s, e).subs
    ensures (e == Sweep && Expired(s.subs[session], s.now)) || (e == CloseAll && s.shutdown)
  {
  }

  /** The event leaves the session without clients: its last one leaves, or it is created. */
  ghost predicate BecomesIdle(s: State, e: Event, session: Session) {
    || (&& e.Unsubscribe? && e.member in s.members && s.members[e.member].session == session
        && session in s.subs && s.subs[session].clients == 1)
    || (&& e.UpsertWrite? && e.task in s.upserts && s.upserts[e.task].Missed? && s.upserts[e.task].session == session
        && session !in s.subs)
  }

  ghost predicate WithoutClients(s: State, session: Session) {
    session in s.subs && s.subs[session].clients == 0
  }

  /** The i-th event left the session without clients, and it has had none since. */
  ghost predicate IdleFrom(events: seq<Event>, session: Session, i: nat)
    requires i < |events|
  {
    && BecomesIdle(Run(events[..i]), events[i], session)
    && forall j :: i < j <= |events| ==> WithoutAt(events, session, j)
  }

  ghost predicate WithoutAt(events: seq<Event>, session: Session, j: nat)
    requires j <= |events|
  {
    WithoutClients(Run(events[..j]), session)
  }

  lemma IdleStep(s: State, e: Event, session: Session)
    requires WithoutClients(Step(s, e), session)
    ensures var t := Step(s, e);
            || (WithoutClients(s, session) && t.subs[session] == s.subs[session])
            || (BecomesIdle(s, e, session) && t.subs[session].idleSince == Some(s.now))
  {
    match e
    case UpsertWrite(task) =>
      if task in s.upserts && s.upserts[task].Missed? {
        WriteOutcome(s, task);
      }
    case _ =>
  }

  lemma SamePrefix(events: seq<Event>, e: Event, i: nat)
    requires i <= |events|
    ensures (events + [e])[..i] == events[..i]
  {
  }

  lemma WithoutExtends(events: seq<Event>, e: Event, session: Session, j: nat)
    requires j <= |events| + 1
    requires if j <= |events| then WithoutAt(events, session, j) else WithoutClients(Run(events + [e]), session)
    ensures WithoutAt(events + [e], session, j)
  {
    if j <= |events| {
      SamePrefix(events, e, j);
    } else {
      assert (events + [e])[..j] == events + [e];
    }
  }

  lemma IdleFromExtends(events: seq<Event>, e: Event, session: Session, i: nat)
    requires i < |events| && IdleFrom(events, session, i) && WithoutClients(Run(events + [e]), session)
    ensures IdleFrom(events + [e], session, i)
  {
    SamePrefix(events, e, i);
    forall j | i < j <= |events| + 1 ensures WithoutAt(events + [e], session, j) {
      WithoutExtends(events, e, session, j);
    }
  }

  lemma IdleFromNow(events: seq<Event>, e: Event, session: Session)
    requires BecomesIdle(Run(events), e, session) && WithoutClients(Run(events + [e]), session)
    ensures IdleFrom(events + [e], session, |events|)
  {
    SamePrefix(events, e, |events|);
    assert events[..|events|] == events;
    WithoutExtends(events, e, session, |events| + 1);
  }

  /** The recorded time is when the session went idle: the moment of the event that left it without clients. */
  lemma {:induction false} IdleSinceIsTrue(events: seq<Event>, session: Session) returns (i: nat)
    requires WithoutClients(Run(events), session)
    ensures i < |events| && IdleFrom(events, session, i)
    ensures Run(events).subs[session].idleSince == Some(Run(events[..i]).now)
  {
    var earlier, e := events[..|events| - 1], events[|events| - 1];
    assert events == earlier + [e];
    IdleStep(Run(earlier), e, session);
    if WithoutClients(Run(earlier), session) && Run(events).subs[session] == Run(earlier).subs[session] {
      i := IdleSinceIsTrue(earlier, session);
      IdleFromExtends(earlier, e, session, i);
      SamePrefix(earlier, e, i);
    } else {
      i := |earlier|;
      IdleFromNow(earlier, e, session);
      SamePrefix(earlier, e, i);
      assert earlier[..i] == earlier;
    }
  }

  /**
   With sweeps exactly every TTL, measured from the event that left the session without
   clients: it is still there only up to `2 * TTL` later; whatever step removes a session is a
   sweep, finds it without clients, and comes strictly more than TTL after that event.
   */
  lemma ReapTiming(events: seq<Event>, session: Session, e: Event)
    requires !Run(events).shutdown && session in Run(events).subs
    ensures var s := Run(events);
            && (s.subs[session].clients == 0 ==>
                  exists i :: 0 <= i < |events| && IdleFrom(events, session, i)
                              && s.now <= Run(events[..i]).now + 2 * SESSION_TTL)
            && (session !in Step(s, e).subs ==>
                  && e == Sweep && s.subs[session].clients == 0
                  && exists i :: 0 <= i < |events| && IdleFrom(events, session, i)
                                 && Run(events[..i]).now + SESSION_TTL < s.now)
  {
    RunKeepsTime(events);
    if session !in Step(Run(events), e).subs {
      OnlySweepsRemove(Run(events), e, session);
    }
    if Run(events).subs[session].clients == 0 {
      var i := IdleSinceIsTrue(events, session);
      assert IdleFrom(events, session, i);
    }
  }

  /**
   The comparison at its boundary: a session idle for exactly one TTL survives that sweep, so
   it can live for exactly two, and the sweep then takes it.
   */
  lemma ReapAtTwiceTtl(session: Session)
    ensures var events := [UpsertRead(0, session, {}), UpsertWrite(0),
                           Sweep, Advance(SESSION_TTL), Sweep, Advance(SESSION_TTL)];
            var s := Run(events);
            && session in s.subs && s.subs[session].idleSince == Some(0) && s.now == 2 * SESSION_TTL
            && session !in Run(events + [Sweep]).subs
  {
    var events := TwoTtls(session);
    assert events
      == [UpsertRead(0, session, {}), UpsertWrite(0), Sweep, Advance(SESSION_TTL), Sweep, Advance(SESSION_TTL)];
    TwoTtlsPass(session);
    RunAppend(events, Sweep);
  }

  function TwoTtls(session: Session): seq<Event> {
    Creating(session) + [Sweep] + [Advance(SESSION_TTL)] + [Sweep] + [Advance(SESSION_TTL)]
  }

  lemma TwoTtlsPass(session: Session)
    ensures Run(TwoTtls(session)) == OneSession(session).(now := 2 * SESSION_TTL, nextSweep := 2 * SESSION_TTL)
  {
    CreateOne(session);
    SweepAndWait(session, Creating(session), OneSession(session));
    SweepAndWait(session, Creating(session) + [Sweep] + [Advance(SESSION_TTL)],
                 OneSession(session).(now := SESSION_TTL, nextSweep := SESSION_TTL));
  }

  lemma SweepAndWait(session: Session, events: seq<Event>, s: State)
    requires Run(events) == s && s.now == s.nextSweep <= SESSION_TTL && !s.closed
    requires s.subs == map[session := SubWithCounter(0, 0, Some(0))]
    ensures Run(events + [Sweep] + [Advance(SESSION_TTL)])
      == s.(now := s.now + SESSION_TTL, nextSweep := s.now + SESSION_TTL)
  {
    RunAppend(events, Sweep);
    IdleSurvives(session, s);
    RunAppend(events + [Sweep], Advance(SESSION_TTL));
  }

  /** A sweep at most one TTL after time 0 leaves that session alone. */
  lemma IdleSurvives(session: Session, s: State)
    requires s.subs == map[session := SubWithCounter(0, 0, Some(0))] && s.now == s.nextSweep <= SESSION_TTL && !s.closed
    ensures Step(s, Sweep) == s.(nextSweep := s.now + SESSION_TTL)
  {
    assert Swept(s.subs, s.now) == s.subs;
    assert Dropped(s.subs, s.subs) == {};
    assert s.cancelled + {} == s.cancelled && s.removed + {} == s.removed;
  }

  lemma RunAppend(events: seq<Event>, e: Event)
    ensures Run(events + [e]) == Step(Run(events), e)
  {
    assert (events + [e])[..|events|] == events;
  }
}
