/**
 `broadcast_events_with_lag_close`: a receiver on the bounded broadcast ring, turned into
 a stream that closes rather than skip an event.
 */
module LagClose {
  import opened Domain

  const BROADCAST_CHANNEL_CAPACITY := 256

  /** Where a receiver stands: the index of the next event it will read, or closed after lagging. */
  datatype Stream = Streaming(next: nat) | Closed

  datatype Polled = Pending | Item(event: BalanceEvent, stream: Stream) | End

  /** The ring keeps the newest `BROADCAST_CHANNEL_CAPACITY` events; older ones are gone. */
  predicate Lagged(next: nat, sent: nat) {
    sent > next + BROADCAST_CHANNEL_CAPACITY
  }

  const LAG_CLOSE := Error(503)

  /** One poll of the stream, when `sent` has been broadcast so far. */
  function Poll(stream: Stream, sent: seq<BalanceEvent>, senderAlive: bool): Polled {
    match stream
    case Closed => End
    case Streaming(next) =>
      if Lagged(next, |sent|) then Item(LAG_CLOSE, Closed)
      else if next < |sent| then Item(sent[next], Streaming(next + 1))
      else if senderAlive then Pending
      else End
  }

  /** A channel and one stream on it, attached when `attached` events had been sent. */
  datatype State = State(sent: seq<BalanceEvent>, senderAlive: bool, stream: Stream, ended: bool,
                         output: seq<BalanceEvent>)

  datatype Event = Send(event: BalanceEvent) | DropSender | PollStream

  function Attach(sent: seq<BalanceEvent>): State {
    State(sent, true, Streaming(|sent|), false, [])
  }

  function Step(s: State, e: Event): State {
    match e
    case Send(event) => if s.senderAlive then s.(sent := s.sent + [event]) else s
    case DropSender => s.(senderAlive := false)
    case PollStream =>
      if s.ended then s
      else
        match Poll(s.stream, s.sent, s.senderAlive)
        case Pending => s
        case Item(event, stream) => s.(stream := stream, output := s.output + [event])
        case End => s.(ended := true)
  }

  function Run(s: State, events: seq<Event>): State {
    if events == [] then s else Step(Run(s, events[..|events| - 1]), events[|events| - 1])
  }

  /** The output is the gap-free run of sends from `attached` to `next`. */
  predicate GapFree(s: State, attached: nat, next: nat) {
    attached <= next <= |s.sent| && s.output == s.sent[attached..next]
  }

  /** That run, then the one lag-close event. */
  predicate ClosedAfter(s: State, attached: nat, next: nat) {
    attached <= next <= |s.sent| && s.output == s.sent[attached..next] + [LAG_CLOSE] && Lagged(next, |s.sent|)
  }

  ghost predicate Inv(s: State, attached: nat) {
    match s.stream
    case Streaming(next) => GapFree(s, attached, next) && (s.ended ==> !s.senderAlive && next == |s.sent|)
    case Closed => exists next: nat :: ClosedAfter(s, attached, next)
  }

  lemma StepKeepsInv(s: State, e: Event, attached: nat)
    requires Inv(s, attached)
    ensures Inv(Step(s, e), attached)
  {
    var t := Step(s, e);
    match s.stream
    case Streaming(next) =>
      assert t.sent[attached..next] == s.sent[attached..next];
      if t.stream == Closed {
        assert ClosedAfter(t, attached, next);
      } else if t.stream.next == next + 1 {
        assert s.sent[attached..next] + [s.sent[next]] == s.sent[attached..next + 1];
      }
    case Closed =>
      var next: nat :| ClosedAfter(s, attached, next);
      assert t.sent[attached..next] == s.sent[attached..next];
      assert ClosedAfter(t, attached, next);
  }

  /**
   Under any interleaving of sends, polls and the sender going away, a stream has put out
   either exactly the events sent from its attachment up to some point - all of them, once
   it has ended - or such a run followed by one 503, and then only if the receiver had
   fallen more than the capacity behind.
   */
  lemma {:induction false} StreamIsGapFree(sent: seq<BalanceEvent>, events: seq<Event>)
    ensures var s := Run(Attach(sent), events);
            if s.stream.Streaming? then
              && |sent| <= s.stream.next <= |s.sent| && s.output == s.sent[|sent|..s.stream.next]
              && (s.ended ==> !s.senderAlive && s.output == s.sent[|sent|..])
            else
              exists next: nat :: |sent| <= next <= |s.sent| && s.output == s.sent[|sent|..next] + [Error(503)]
                                  && |s.sent| > next + BROADCAST_CHANNEL_CAPACITY
  {
    RunKeepsInv(sent, events);
    var s := Run(Attach(sent), events);
    if s.stream.Closed? {
      var next: nat :| ClosedAfter(s, |sent|, next);
      assert s.output == s.sent[|sent|..next] + [Error(503)];
    }
  }

  lemma {:induction false} RunKeepsInv(sent: seq<BalanceEvent>, events: seq<Event>)
    ensures Inv(Run(Attach(sent), events), |sent|)
  {
    if events != [] {
      RunKeepsInv(sent, events[..|events| - 1]);
      StepKeepsInv(Run(Attach(sent), events[..|events| - 1]), events[|events| - 1], |sent|);
    }
  }

  /** After the 503 nothing follows: whatever happens next, the output stays and the next poll ends the stream. */
  lemma {:induction false} NothingAfterClose(s: State, events: seq<Event>)
    requires s.stream.Closed?
    ensures Run(s, events).output == s.output && Run(s, events).stream.Closed?
    ensures PollStream in events ==> Run(s, events).ended
  {
    if events != [] {
      NothingAfterClose(s, events[..|events| - 1]);
    }
  }

  /** A receiver that is never more than the capacity behind when polled is never closed. */
  lemma {:induction false} KeepingUpIsSafe(sent: seq<BalanceEvent>, events: seq<Event>)
    requires forall i :: 0 <= i < |events| && events[i].PollStream? ==>
               var s := Run(Attach(sent), events[..i]);
               s.stream.Streaming? ==> |s.sent| <= s.stream.next + BROADCAST_CHANNEL_CAPACITY
    ensures Run(Attach(sent), events).stream.Streaming?
  {
    if events != [] {
      var earlier := events[..|events| - 1];
      forall i | 0 <= i < |earlier| && earlier[i].PollStream?
        ensures var s := Run(Attach(sent), earlier[..i]);
                s.stream.Streaming? ==> |s.sent| <= s.stream.next + BROADCAST_CHANNEL_CAPACITY
      {
        assert earlier[..i] == events[..i] && earlier[i] == events[i];
      }
      KeepingUpIsSafe(sent, earlier);
      assert earlier == events[..|events| - 1];
    }
  }

  /** More events have been sent than the ring keeps beyond the receiver's position. */
  ghost predicate Behind(s: State) {
    s.stream.Streaming? && !s.ended && |s.sent| > s.stream.next + BROADCAST_CHANNEL_CAPACITY
  }

  /**
   What a poll of an open stream does, exactly: a receiver behind gets the 503 and is closed;
   one within reach gets the next event, which is among the newest the ring keeps; one that
   has had everything waits, or ends if the sender is gone.
   */
  lemma PollIsExact(s: State)
    requires s.stream.Streaming? && !s.ended
    ensures var t, next := Step(s, PollStream), s.stream.next;
            if |s.sent| > next + BROADCAST_CHANNEL_CAPACITY then
              t == s.(output := s.output + [Error(503)], stream := Closed)
            else if next < |s.sent| then
              && |s.sent| - BROADCAST_CHANNEL_CAPACITY <= next
              && t == s.(output := s.output + [s.sent[next]], stream := Streaming(next + 1))
            else
              t == s.(ended := !s.senderAlive)
  {
  }

  /** Some poll of the run found the receiver behind. */
  ghost predicate FoundBehind(sent: seq<BalanceEvent>, events: seq<Event>) {
    exists i :: 0 <= i < |events| && events[i].PollStream? && BehindAt(sent, events, i)
  }

  ghost predicate BehindAt(sent: seq<BalanceEvent>, events: seq<Event>, i: nat)
    requires i <= |events|
  {
    Behind(Run(Attach(sent), events[..i]))
  }

  lemma FoundAppend(sent: seq<BalanceEvent>, earlier: seq<Event>, e: Event)
    ensures FoundBehind(sent, earlier + [e]) <==>
              FoundBehind(sent, earlier) || (e.PollStream? && Behind(Run(Attach(sent), earlier)))
  {
    var events := earlier + [e];
    assert events[..|earlier|] == earlier;
    if FoundBehind(sent, events) {
      var i :| 0 <= i < |events| && events[i].PollStream? && BehindAt(sent, events, i);
      if i < |earlier| {
        assert events[..i] == earlier[..i];
        assert earlier[i].PollStream? && BehindAt(sent, earlier, i);
      }
    }
    if FoundBehind(sent, earlier) {
      var i :| 0 <= i < |earlier| && earlier[i].PollStream? && BehindAt(sent, earlier, i);
      assert events[..i] == earlier[..i];
      assert events[i].PollStream? && BehindAt(sent, events, i);
    }
    if e.PollStream? && Behind(Run(Attach(sent), earlier)) {
      assert events[|earlier|].PollStream? && BehindAt(sent, events, |earlier|);
    }
  }

  /**
   In every run a stream has been closed if and only if some poll found the receiver more than
   the capacity behind.
   */
  lemma {:induction false} ClosedExactly(sent: seq<BalanceEvent>, events: seq<Event>)
    ensures Run(Attach(sent), events).stream.Closed? <==> FoundBehind(sent, events)
  {
    if events != [] {
      var earlier, e := events[..|events| - 1], events[|events| - 1];
      var s := Run(Attach(sent), earlier);
      assert events == earlier + [e];
      ClosedExactly(sent, earlier);
      FoundAppend(sent, earlier, e);
      if e.PollStream? && s.stream.Streaming? && !s.ended {
        PollIsExact(s);
      }
    }
  }
}
