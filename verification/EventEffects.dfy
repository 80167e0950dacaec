/**
 What the transactions of the event worker mean: which event a claim takes, and what becomes
 of an event that is acknowledged, deferred, rejected or interrupted.
 */
module EventEffects {
  import opened Common
  import opened Ordering
  import opened EventQueue

  // --- Claims ----------------------------------------------------------------------------------------

  predicate Waiting(e: Event, now: int) {
    e.status == Pending && e.availableAt <= now
  }

  // a is taken before b: higher priority, then available earlier, then the older row.
  predicate Before(a: Event, aId: int, b: Event, bId: int) {
    a.priority > b.priority
    || (a.priority == b.priority
        && (a.availableAt < b.availableAt || (a.availableAt == b.availableAt && aId < bId)))
  }

  lemma ChosenIsFirst(events: map<int, Event>, now: int, id: int)
    ensures Chosen(events, now, id)
            <==> id in events && Waiting(events[id], now)
                 && forall other <- events.Keys ::
                      Waiting(events[other], now) && other != id ==> Before(events[id], id, events[other], other)
  {
    var due := DueIds(events, now);
    forall k ensures k in due <==> k in events && Waiting(events[k], now) {
    }
    hide DueIds, Waiting, Due;
    forall other | id in due && other in due && other != id
      ensures Precedes(Ranks(events), id, other) <==> Before(events[id], id, events[other], other)
    {
    }
    hide Precedes, Before, Ranks;
    assert forall other :: other in events.Keys && Waiting(events[other], now) ==> other in due;
  }

  lemma NothingDue(events: map<int, Event>, now: int)
    requires forall id <- events.Keys :: !Waiting(events[id], now)
    ensures DueIds(events, now) == {}
  {
    forall id ensures id !in DueIds(events, now) {
      assert id in events ==> id in events.Keys;
    }
  }

  /**
   A claim takes the waiting event of highest priority, then earliest availability, then lowest
   id, marks it with the worker and the time, counts the attempt, and touches no other event. If
   none waits, nothing changes.
   */
  lemma ClaimMarks(s: State, now: int)
    requires s.worker.Ready?
    ensures (forall id <- s.events.Keys :: !Waiting(s.events[id], now)) ==> Step(s, Call(Claim, now)) == s
    ensures forall id <- s.events.Keys ::
              Waiting(s.events[id], now)
              && (forall other <- s.events.Keys ::
                    Waiting(s.events[other], now) && other != id ==>
                      Before(s.events[id], id, s.events[other], other)) ==>
                Step(s, Call(Claim, now)) ==
                s.(events := s.events[id := s.events[id].(status := Processing, claimedAt := Some(now),
                                                          worker := Some(s.worker.id), lastError := None,
                                                          attempts := s.events[id].attempts + 1)],
                   worker := Working(s.worker.id, id))
  {
    if forall id <- s.events.Keys :: !Waiting(s.events[id], now) {
      NothingDue(s.events, now);
    }
    forall id | id in s.events.Keys && Chosen(s.events, now, id)
      ensures Step(s, Call(Claim, now)) == s.(events := s.events[id := Claimed(s.events[id], s.worker.id, now)],
                                              worker := Working(s.worker.id, id))
    {
      ClaimTakesGreatest(s, now, id);
    }
    hide Step, Precedes, Before;
    forall id | id in s.events.Keys
      ensures Chosen(s.events, now, id)
              <==> Waiting(s.events[id], now)
                   && forall other <- s.events.Keys ::
                        Waiting(s.events[other], now) && other != id ==>
                          Before(s.events[id], id, s.events[other], other)
    {
      ChosenIsFirst(s.events, now, id);
    }
    hide Chosen;
  }

  // --- Settlements -----------------------------------------------------------------------------------

  predicate Holds(s: State) {
    s.worker.Working? && s.worker.event in s.events
  }

  // The row of the event at hand is replaced, and the worker is free for the next one.
  predicate Settles(s: State, n: State, row: Event)
    requires Holds(s)
  {
    n == s.(events := s.events[s.worker.event := row], worker := Ready(s.worker.id))
  }

  /**
   An acknowledged event is processed for good: its row says so, and in every continuation, with
   any crashes, it stays as it is and is never claimed again.
   */
  lemma AcknowledgedForGood(s: State, now: int, after: seq<Call>)
    requires Coherent(s) && Holds(s)
    ensures var n, k := Step(s, Call(Acknowledge, now)), s.worker.event;
            && Settles(s, n, s.events[k].(status := Processed, processedAt := Some(now), lastError := None))
            && k in Run(n, after).events && Run(n, after).events[k] == n.events[k] && ClaimCount(n, after, k) == 0
  {
    var n, k := Step(s, Call(Acknowledge, now)), s.worker.event;
    assert n.events[k].status == Processed;
    CoherentStep(s, Call(Acknowledge, now));
    hide Run, ClaimCount, Coherent;
    NothingLost(n, after, k);
  }

  // A rejected event has failed for good, with the error it was rejected for.
  lemma RejectedForGood(s: State, error: string, now: int, after: seq<Call>)
    requires Coherent(s) && Holds(s)
    ensures var n, k := Step(s, Call(DeadLetter(error), now)), s.worker.event;
            && Settles(s, n, s.events[k].(status := Failed, processedAt := Some(now), lastError := Some(error),
                                          worker := None, claimedAt := None))
            && k in Run(n, after).events && Run(n, after).events[k] == n.events[k] && ClaimCount(n, after, k) == 0
  {
    var n, k := Step(s, Call(DeadLetter(error), now)), s.worker.event;
    assert n.events[k].status == Failed;
    CoherentStep(s, Call(DeadLetter(error), now));
    hide Run, ClaimCount, Coherent;
    NothingLost(n, after, k);
  }

  // A pending event that is not available yet is left alone.
  lemma SleepStep(s: State, c: Call, k: int)
    requires Coherent(s) && k in s.events && s.events[k].status == Pending && c.now < s.events[k].availableAt
    ensures k in Step(s, c).events && Step(s, c).events[k] == s.events[k] && !Claims(s, c, k)
  {
    EventStep(s, c, k);
    if c.op.Claim? && Accepts(s, c.op, c.now) && DueIds(s.events, c.now) != {} {
      var claimed := ClaimFacts(s, c.now);
      hide ClaimedState;
    }
  }

  lemma {:induction false} Sleeps(s: State, after: seq<Call>, k: int)
    requires Coherent(s) && k in s.events && s.events[k].status == Pending
    requires forall c <- after :: c.now < s.events[k].availableAt
    ensures k in Run(s, after).events && Run(s, after).events[k] == s.events[k] && ClaimCount(s, after, k) == 0
    decreases |after|
  {
    hide Step, Coherent, Claims;
    if after == [] {
    } else {
      CoherentStep(s, after[0]);
      SleepStep(s, after[0], k);
      Sleeps(Step(s, after[0]), after[1..], k);
    }
  }

  /**
   A deferred event is pending again for the time given, and whatever happens before that time,
   nobody claims it.
   */
  lemma DeferredUntil(s: State, availableAt: int, error: string, now: int, after: seq<Call>)
    requires Coherent(s) && Holds(s) && forall c <- after :: c.now < availableAt
    ensures var n, k := Step(s, Call(Defer(availableAt, error), now)), s.worker.event;
            && Settles(s, n, s.events[k].(status := Pending, availableAt := availableAt, lastError := Some(error),
                                          worker := None, claimedAt := None, processedAt := None))
            && k in Run(n, after).events && Run(n, after).events[k] == n.events[k] && ClaimCount(n, after, k) == 0
  {
    CoherentStep(s, Call(Defer(availableAt, error), now));
    hide Run, ClaimCount, Coherent;
    Sleeps(Step(s, Call(Defer(availableAt, error), now)), after, s.worker.event);
  }

  // --- Interruptions ---------------------------------------------------------------------------------

  // An error gives the event back at once; a crash leaves it processing until the next start.
  lemma InterruptionReturns(s: State, error: string, now: int)
    requires Holds(s)
    ensures Step(s, Call(GiveBack(error), now)) ==
            s.(events := s.events[s.worker.event := s.events[s.worker.event].(
                 status := Pending, worker := None, claimedAt := None, lastError := Some(error))], worker := Nobody)
    ensures Step(s, Call(Crash, now)) == s.(worker := Nobody)
  {
  }

  // A crash at any point leaves the events as they are and frees the lock.
  lemma CrashFrees(s: State, now: int)
    ensures Step(s, Call(Crash, now)) == s.(worker := Nobody)
  {
  }

  // The lock admits one worker at a time: while it is held, acquiring it changes nothing.
  lemma LockIsExclusive(s: State, w: string, now: int)
    ensures Step(s, Call(Acquire(w), now)) == if s.worker == Nobody then s.(worker := Starting(w)) else s
  {
  }

  // The start of a worker returns what was processing, and nothing else.
  lemma StartReturns(s: State, now: int, id: int)
    requires s.worker.Starting? && id in s.events
    ensures var n := Step(s, Call(Recover, now));
            && n.worker == Ready(s.worker.id) && n.seqno == s.seqno && n.events.Keys == s.events.Keys
            && n.events[id] == if s.events[id].status != Processing then s.events[id]
                               else s.events[id].(status := Pending, claimedAt := None, worker := None, lastError :=
                                      Some("worker restarted before acknowledgement"))
  {
  }

  // An event enters the queue as it was given, waiting and untried, under the next id.
  lemma EnqueueStores(s: State, c: Call)
    requires c.op.Enqueue?
    ensures Step(s, c) ==
            s.(seqno := s.seqno + 1,
               events := s.events[s.seqno + 1 := Event(c.op.kind, c.op.payload, c.now, c.op.priority, c.op.availableAt,
                                                       Pending, 0, None, None, None, None)])
  {
  }
}
