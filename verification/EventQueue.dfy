/**
 The durable event queue: every committed transaction of the worker, enqueues by anyone,
 and crashes at any point in between.
 */
module EventQueue {
  import opened Common
  import opened Ordering

  datatype Status = Pending | Processing | Processed | Failed

  datatype Event = Event(kind: string, payload: string, createdAt: int, priority: int, availableAt: int,
                         status: Status, attempts: nat, worker: Option<string>, claimedAt: Option<int>,
                         processedAt: Option<int>, lastError: Option<string>)

  // The process that holds the worker lock, and how far it got. A crash forgets this.
  datatype Worker = Nobody | Starting(id: string) | Ready(id: string) | Working(id: string, event: int)

  datatype State = State(events: map<int, Event>, seqno: nat, worker: Worker)

  datatype Op =
    | Enqueue(kind: string, payload: string, priority: int, availableAt: int)
    | Acquire(worker: string)
    | Recover
    | Claim
    | Acknowledge
    | Defer(availableAt: int, error: string)
    | DeadLetter(error: string)
    | GiveBack(error: string)
    | Crash

  const RESTARTED := "worker restarted before acknowledgement"

  predicate Due(e: Event, now: int) {
    e.status == Pending && e.availableAt <= now
  }

  function DueIds(events: map<int, Event>, now: int): set<int> {
    set id | id in events && Due(events[id], now)
  }

  // ORDER BY priority DESC, available_at, id
  function Ranks(events: map<int, Event>): map<int, Key> {
    map id | id in events :: (-events[id].priority, events[id].availableAt)
  }

  // The due event of greatest priority, then earliest availability, then lowest id.
  predicate Chosen(events: map<int, Event>, now: int, id: int) {
    id in DueIds(events, now)
    && forall other <- DueIds(events, now) :: other == id || Precedes(Ranks(events), id, other)
  }

  lemma OneChoice(events: map<int, Event>, now: int, a: int, b: int)
    requires Chosen(events, now, a) && Chosen(events, now, b)
    ensures a == b
  {
  }

  function Recovered(e: Event): Event {
    if e.status != Processing then e
    else e.(status := Pending, claimedAt := None, worker := None, lastError := Some(RESTARTED))
  }

  function Claimed(e: Event, w: string, now: int): Event {
    e.(status := Processing, claimedAt := Some(now), worker := Some(w), attempts := e.attempts + 1, lastError := None)
  }

  function Acknowledged(e: Event, now: int): Event {
    e.(status := Processed, processedAt := Some(now), lastError := None)
  }

  function Deferred(e: Event, availableAt: int, error: string): Event {
    e.(status := Pending, availableAt := availableAt, worker := None, claimedAt := None, processedAt := None,
       lastError := Some(error))
  }

  function DeadLettered(e: Event, now: int, error: string): Event {
    e.(status := Failed, worker := None, claimedAt := None, processedAt := Some(now), lastError := Some(error))
  }

  function GivenBack(e: Event, error: string): Event {
    e.(status := Pending, worker := None, claimedAt := None, lastError := Some(error))
  }

  function NewEvent(op: Op, now: int): Event
    requires op.Enqueue?
  {
    Event(op.kind, op.payload, now, op.priority, op.availableAt, Pending, 0, None, None, None, None)
  }

  predicate Accepts(s: State, op: Op, now: int) {
    match op
    case Enqueue(_, _, _, _) => true
    case Acquire(_) => s.worker.Nobody?
    case Recover => s.worker.Starting?
    case Claim => s.worker.Ready?
    case Crash => !s.worker.Nobody?
    case _ => s.worker.Working? && s.worker.event in s.events
  }

  ghost function Next(s: State, op: Op, now: int): State
    requires Accepts(s, op, now)
  {
    match op
    case Enqueue(_, _, _, _) => s.(events := s.events[s.seqno + 1 := NewEvent(op, now)], seqno := s.seqno + 1)
    case Acquire(w) => s.(worker := Starting(w))
    case Recover => s.(events := map id | id in s.events :: Recovered(s.events[id]), worker := Ready(s.worker.id))
    case Claim =>
      if DueIds(s.events, now) == {} then s
      else ClaimedState(s, now)
    case Acknowledge => Settled(s, Acknowledged(s.events[s.worker.event], now))
    case Defer(at, error) => Settled(s, Deferred(s.events[s.worker.event], at, error))
    case DeadLetter(error) => Settled(s, DeadLettered(s.events[s.worker.event], now, error))
    case GiveBack(error) => Settled(s, GivenBack(s.events[s.worker.event], error)).(worker := Nobody)
    case Crash => s.(worker := Nobody)
  }

  function Settled(s: State, e: Event): State
    requires s.worker.Working?
  {
    s.(events := s.events[s.worker.event := e], worker := Ready(s.worker.id))
  }

  ghost function ClaimedState(s: State, now: int): State
    requires s.worker.Ready? && DueIds(s.events, now) != {}
  {
    ChoiceExists(s.events, now);
    var id :| Chosen(s.events, now, id);
    s.(events := s.events[id := Claimed(s.events[id], s.worker.id, now)], worker := Working(s.worker.id, id))
  }

  lemma ChoiceExists(events: map<int, Event>, now: int)
    requires DueIds(events, now) != {}
    ensures exists id :: Chosen(events, now, id)
  {
    var id := LeastRank(Ranks(events), DueIds(events, now));
    assert Chosen(events, now, id);
  }

  lemma LeastRank(rows: map<int, Key>, ids: set<int>) returns (least: int)
    requires ids != {} && forall id <- ids :: id in rows
    ensures least in ids && forall id <- ids :: id == least || Precedes(rows, least, id)
    decreases ids
  {
    Inhabited(ids);
    var id :| id in ids;
    var rest := ids - {id};
    if rest == {} {
      least := id;
    } else {
      least := LeastRank(rows, rest);
      if Precedes(rows, id, least) {
        least := id;
      }
    }
    assert forall k :: k in ids ==> k == id || k in rest;
  }

  datatype Call = Call(op: Op, now: int)

  ghost function Step(s: State, c: Call): State {
    if Accepts(s, c.op, c.now) then Next(s, c.op, c.now) else s
  }

  ghost function Run(s: State, calls: seq<Call>): State
    decreases |calls|
  {
    if calls == [] then s else Run(Step(s, calls[0]), calls[1..])
  }

  const EMPTY := State(map[], 0, Nobody)

  // --- Safety ---------------------------------------------------------------------------------------

  // The worker and the processing events agree, and no key exceeds the sequence.
  predicate Coherent(s: State) {
    && (forall id <- s.events.Keys :: id <= s.seqno)
    && (forall a, b :: a in s.events && b in s.events && a != b ==>
                         s.events[a].status != Processing || s.events[b].status != Processing)
    && (s.worker.Working? ==> s.worker.event in s.events && s.events[s.worker.event].status == Processing
                              && s.events[s.worker.event].worker == Some(s.worker.id))
    && (s.worker.Ready? ==> forall id <- s.events.Keys :: s.events[id].status != Processing)
  }

  lemma CoherentStep(s: State, c: Call)
    requires Coherent(s)
    ensures Coherent(Step(s, c))
  {
    hide Chosen, Ranks;
    if c.op.Claim? && Accepts(s, c.op, c.now) && DueIds(s.events, c.now) != {} {
      var id := ClaimFacts(s, c.now);
    }
  }

  lemma ClaimFacts(s: State, now: int) returns (id: int)
    requires s.worker.Ready? && DueIds(s.events, now) != {}
    ensures Chosen(s.events, now, id) && Due(s.events[id], now)
    ensures ClaimedState(s, now)
            == s.(events := s.events[id := Claimed(s.events[id], s.worker.id, now)], worker := Working(s.worker.id, id))
  {
    ChoiceExists(s.events, now);
    id :| Chosen(s.events, now, id) && ClaimedState(s, now)
            == s.(events := s.events[id := Claimed(s.events[id], s.worker.id, now)],
                  worker := Working(s.worker.id, id));
  }

  lemma {:induction false} CoherentRun(s: State, calls: seq<Call>)
    requires Coherent(s)
    ensures Coherent(Run(s, calls))
    decreases |calls|
  {
    if calls == [] {
    } else {
      CoherentStep(s, calls[0]);
      CoherentRun(Step(s, calls[0]), calls[1..]);
    }
  }

  // What a later event row keeps of an earlier one.
  predicate Continues(before: Event, after: Event) {
    && after.kind == before.kind && after.payload == before.payload && after.createdAt == before.createdAt
    && after.priority == before.priority && after.attempts >= before.attempts
    && (before.status == Processed || before.status == Failed ==> after == before)
  }

  // An accepted claim that takes this event.
  ghost predicate Claims(s: State, c: Call, id: int) {
    c.op.Claim? && s.worker.Ready? && Chosen(s.events, c.now, id)
  }

  lemma EventStep(s: State, c: Call, id: int)
    requires Coherent(s) && id in s.events
    ensures var n := Step(s, c);
            && id in n.events && Continues(s.events[id], n.events[id])
            && n.events[id].attempts == s.events[id].attempts + (if Claims(s, c, id) then 1 else 0)
  {
    hide Precedes;
    if c.op.Claim? && Accepts(s, c.op, c.now) && DueIds(s.events, c.now) != {} {
      var claimed := ClaimFacts(s, c.now);
      hide ClaimedState;
      if Chosen(s.events, c.now, id) {
        OneChoice(s.events, c.now, id, claimed);
      }
    }
  }

  ghost function ClaimCount(s: State, calls: seq<Call>, id: int): nat
    decreases |calls|
  {
    if calls == [] then 0
    else (if Claims(s, calls[0], id) then 1 else 0) + ClaimCount(Step(s, calls[0]), calls[1..], id)
  }

  /**
   No event is lost, whatever crashes: in any continuation its row is still there with the
   same content, it has been claimed exactly as often as its attempts say, and once it is
   processed or failed the row never changes again.
   */
  lemma {:induction false} NothingLost(s: State, calls: seq<Call>, id: int)
    requires Coherent(s) && id in s.events
    ensures var n := Run(s, calls);
            && id in n.events && Continues(s.events[id], n.events[id])
            && n.events[id].attempts == s.events[id].attempts + ClaimCount(s, calls, id)
    decreases |calls|
  {
    if calls == [] {
    } else {
      hide Step, Coherent, Claims;
      CoherentStep(s, calls[0]);
      EventStep(s, calls[0], id);
      NothingLost(Step(s, calls[0]), calls[1..], id);
    }
  }

  // An enqueued event gets an id no event has had, and starts with no attempts.
  lemma EnqueueAdds(s: State, c: Call)
    requires Coherent(s) && c.op.Enqueue?
    ensures var n := Step(s, c);
            s.seqno + 1 !in s.events && n.events.Keys == s.events.Keys + {s.seqno + 1}
            && n.events[s.seqno + 1].status == Pending && n.events[s.seqno + 1].attempts == 0
            && forall id <- s.events.Keys :: n.events[id] == s.events[id]
  {
  }

  // In every reachable state at most one event is processing; while nobody holds the lock, or
  // the holder has not recovered yet, no event can be claimed.
  lemma OneProcessing(calls: seq<Call>, a: int, b: int)
    requires var s := Run(EMPTY, calls);
             a in s.events && b in s.events && s.events[a].status == s.events[b].status == Processing
    ensures var s := Run(EMPTY, calls);
            a == b && !s.worker.Ready? && (s.worker.Working? ==> s.worker.event == a)
  {
    CoherentRun(EMPTY, calls);
  }

  // After a crash anywhere, a restarted worker finds every unacknowledged event pending.
  lemma RestartRecovers(s: State, w: string, now: int, later: int, id: int)
    requires s.worker.Nobody? && id in s.events
    ensures var n := Step(Step(s, Call(Acquire(w), now)), Call(Recover, later));
            && n.worker == Ready(w) && id in n.events
            && n.events[id].status ==
               (if s.events[id].status in {Processed, Failed} then s.events[id].status else Pending)
  {
  }

  // A claim takes the greatest due event, if there is any, and leaves all others alone.
  lemma ClaimTakesGreatest(s: State, now: int, id: int)
    requires s.worker.Ready? && Chosen(s.events, now, id)
    ensures Step(s, Call(Claim, now))
            == s.(events := s.events[id := Claimed(s.events[id], s.worker.id, now)], worker := Working(s.worker.id, id))
  {
    var claimed := ClaimFacts(s, now);
    hide ClaimedState;
    OneChoice(s.events, now, id, claimed);
  }
}
