/**
 `EventEngine`: the transactions of the worker over the event table. Each keeps at most one
 event processing, in line with the worker.
 */
module EventEngine {
  import opened Common
  import opened Ordering
  import opened EventQueue

  class Engine {
    var events: map<int, Event>
    var seqno: nat
    var worker: Worker

    function Tables(): State
      reads this
    {
      State(events, seqno, worker)
    }

    ghost predicate Valid()
      reads this
    {
      Coherent(Tables())
    }

    constructor ()
      ensures Valid() && Tables() == EMPTY
    {
      events, seqno, worker := map[], 0, Nobody;
    }

    // `Store.enqueue_event`
    method EnqueueEvent(kind: string, payload: string, priority: int, availableAt: int, now: int) returns (id: int)
      requires Valid()
      modifies `events, `seqno
      ensures Valid()
      ensures Tables() == Step(old(Tables()), Call(Enqueue(kind, payload, priority, availableAt), now))
      ensures id == seqno
    {
      id := seqno + 1;
      events := events[id := Event(kind, payload, now, priority, availableAt, Pending, 0, None, None, None, None)];
      seqno := seqno + 1;
    }

    // The worker lock, held by one process at a time.
    method AcquireLock(id: string)
      requires Valid() && worker.Nobody?
      modifies `worker
      ensures Valid()
      ensures Tables() == Step(old(Tables()), Call(Acquire(id), 0))
    {
      worker := Starting(id);
    }

    // `_recover_processing_events`, run once when the lock is taken.
    method RecoverProcessing() returns (recovered: nat)
      requires Valid() && worker.Starting?
      modifies `events, `worker
      ensures Valid()
      ensures Tables() == Step(old(Tables()), Call(Recover, 0))
      ensures recovered == |set id | id in old(events) && old(events)[id].status == Processing|
      ensures recovered <= 1
    {
      var rows := set id | id in events && events[id].status == Processing;
      recovered := |rows|;
      AtMostOne(Tables(), rows);
      events := map id | id in events :: Recovered(events[id]);
      worker := Ready(worker.id);
    }

    // `_claim_one`
    method ClaimOne(now: int) returns (claimed: Option<int>)
      requires Valid() && worker.Ready?
      modifies `events, `worker
      ensures Valid()
      ensures Tables() == Step(old(Tables()), Call(Claim, now))
      ensures claimed.None? <==> DueIds(old(events), now) == {}
      ensures claimed.Some? ==> Chosen(old(events), now, claimed.value)
    {
      hide Precedes;
      CoherentStep(Tables(), Call(Claim, now));
      var due := DueIds(events, now);
      if due == {} {
        return None;
      }
      var id := First(Ranks(events), due);
      ClaimTakesGreatest(Tables(), now, id);
      events := events[id := events[id].(status := Processing, claimedAt := Some(now), worker := Some(worker.id),
                                         attempts := events[id].attempts + 1, lastError := None)];
      worker := Working(worker.id, id);
      claimed := Some(id);
    }

    // The end of `_process_one`: UPDATE ... WHERE id=? AND worker_id=?
    method AcknowledgeEvent(now: int)
      requires Valid() && worker.Working?
      modifies `events, `worker
      ensures Valid()
      ensures Tables() == Step(old(Tables()), Call(Acknowledge, now))
      ensures var id := old(worker).event;
              id in events && events[id].status == Processed && events[id].processedAt == Some(now) && worker.Ready?
    {
      var id := worker.event;
      if id in events && events[id].worker == Some(worker.id) {
        events := events[id := events[id].(status := Processed, processedAt := Some(now), lastError := None)];
      }
      worker := Ready(worker.id);
    }

    // `_defer_event` and the deferral of an unclaimed task:
    // UPDATE ... WHERE id=? AND status='processing' AND worker_id=?
    method DeferEvent(availableAt: int, error: string)
      requires Valid() && worker.Working?
      modifies `events, `worker
      ensures Valid()
      ensures Tables() == Step(old(Tables()), Call(Defer(availableAt, error), 0))
      ensures var id := old(worker).event;
              id in events && events[id].status == Pending && events[id].availableAt == availableAt && worker.Ready?
    {
      var id := worker.event;
      if id in events && events[id].status == Processing && events[id].worker == Some(worker.id) {
        events := events[id := events[id].(status := Pending, availableAt := availableAt, worker := None,
                                           claimedAt := None, processedAt := None, lastError := Some(error))];
      }
      worker := Ready(worker.id);
    }

    // `_dead_letter_event`
    method DeadLetterEvent(error: string, now: int)
      requires Valid() && worker.Working?
      modifies `events, `worker
      ensures Valid()
      ensures Tables() == Step(old(Tables()), Call(DeadLetter(error), now))
      ensures var id := old(worker).event;
              id in events && events[id].status == Failed && events[id].lastError == Some(error) && worker.Ready?
    {
      var id := worker.event;
      if id in events && events[id].status == Processing && events[id].worker == Some(worker.id) {
        events := events[id := events[id].(status := Failed, worker := None, claimedAt := None,
                                           processedAt := Some(now), lastError := Some(error))];
      }
      worker := Ready(worker.id);
    }

    // The exception handler of `_process_one`: the event is pending again and the worker stops.
    method GiveBackEvent(error: string)
      requires Valid() && worker.Working?
      modifies `events, `worker
      ensures Valid()
      ensures Tables() == Step(old(Tables()), Call(GiveBack(error), 0))
      ensures worker.Nobody? && forall id <- events.Keys :: events[id].status != Processing
      ensures var id := old(worker).event;
              id in events && events[id].status == Pending && Continues(old(events)[id], events[id])
              && events[id].attempts == old(events)[id].attempts
              && events[id].availableAt == old(events)[id].availableAt
    {
      var id := worker.event;
      events := events[id := events[id].(status := Pending, worker := None, claimedAt := None,
                                         lastError := Some(error))];
      worker := Nobody;
    }

    // `_process_one` without a crash: a claim, and the transaction its outcome calls for.
    method ProcessOne(outcome: Outcome, now: int) returns (claimed: Option<int>)
      requires Valid() && worker.Ready?
      modifies this
      ensures Valid()
      ensures claimed.None? <==> DueIds(old(events), now) == {}
      ensures claimed.None? ==> Tables() == old(Tables())
      ensures claimed.Some? ==>
                Chosen(old(events), now, claimed.value)
                && Tables() == Step(Step(old(Tables()), Call(Claim, now)),
                                    Call(Settlement(outcome), SettledAt(outcome, now)))
      ensures claimed.Some? ==>
                claimed.value in events && claimed.value in old(events)
                && var e := events[claimed.value];
                   e.attempts == old(events)[claimed.value].attempts + 1
                   && match outcome
                      case Done => e.status == Processed && worker.Ready?
                      case RetryLater(at, error) => e.status == Pending && e.availableAt == at && worker.Ready?
                      case Rejected(error) => e.status == Failed && e.lastError == Some(error) && worker.Ready?
                      case Broken(error) => e.status == Pending && worker.Nobody?
    {
      claimed := ClaimOne(now);
      if claimed.Some? {
        match outcome
        case Done => AcknowledgeEvent(now);
        case RetryLater(at, error) => DeferEvent(at, error);
        case Rejected(error) => DeadLetterEvent(error, now);
        case Broken(error) => GiveBackEvent(error);
      }
    }
  }

  // What handling an event ends in.
  datatype Outcome =
    | Done
    | RetryLater(availableAt: int, error: string)
    | Rejected(error: string)
    | Broken(error: string)

  function Settlement(o: Outcome): Op {
    match o
    case Done => Acknowledge
    case RetryLater(at, error) => Defer(at, error)
    case Rejected(error) => DeadLetter(error)
    case Broken(error) => GiveBack(error)
  }

  function SettledAt(o: Outcome, now: int): int {
    if o.Done? || o.Rejected? then now else 0
  }

  lemma AtMostOne(s: State, rows: set<int>)
    requires Coherent(s) && forall id <- rows :: id in s.events && s.events[id].status == Processing
    ensures |rows| <= 1
  {
    Inhabited(rows);
    if rows != {} {
      var id :| id in rows;
      assert forall other :: other in rows ==> other == id;
      assert rows == {id};
    }
  }
}
