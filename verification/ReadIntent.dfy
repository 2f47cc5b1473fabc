// Read intents: a scoped announcement that a thread is going to read the display's
// file descriptor.
//
// libwayland counts the announcements; every one must be taken back exactly once, by
// reading or by cancelling.  Threads are interleaved at the granularity of one
// operation, and a handler may put further events on the queue being dispatched.

module ReadIntent {
  import opened Common

  // An event; dispatching it runs a handler that may put further events on the queue.
  datatype Event = Event(id: nat, adds: seq<Event>)

  // A read_intent.  The last two fields are history: the number of calls of libwayland
  // that lowered the reader count on its account, and how many of them were failed
  // reads.
  datatype Intent = Intent(queue: nat, live: bool, finalized: bool, lowered: nat, failures: nat)

  datatype State = State(
    queues: map<nat, seq<Event>>,
    readers: int,
    intents: map<nat, Intent>,
    next: nat,
    dispatched: seq<nat>,
    failed: nat
  )

  datatype Error = Finalized | SystemError(errno: nat)

  const INITIAL := State(map[], 0, map[], 0, [], 0)

  const EAGAIN: nat := 11

  function Pending(s: State, q: nat): seq<Event> {
    if q in s.queues then s.queues[q] else []
  }

  // --------------------------------------------------------------- dispatching

  function Weight(events: seq<Event>): nat {
    if events == [] then 0 else 1 + Weight(events[0].adds) + Weight(events[1..])
  }

  lemma {:induction false} WeightOfConcat(a: seq<Event>, b: seq<Event>)
    ensures Weight(a + b) == Weight(a) + Weight(b)
  {
    if a == [] {
      assert a + b == b;
    } else {
      assert (a + b)[1..] == a[1..] + b;
      WeightOfConcat(a[1..], b);
    }
  }

  // The order in which events are handled until the queue is empty.
  function Drained(events: seq<Event>): (ids: seq<nat>)
    decreases Weight(events)
  {
    if events == [] then []
    else
      WeightOfConcat(events[1..], events[0].adds);
      [events[0].id] + Drained(events[1..] + events[0].adds)
  }

  // Every event, also one a handler added, is handled exactly once.
  function Ids(events: seq<Event>): multiset<nat> {
    if events == [] then multiset{} else multiset{events[0].id} + Ids(events[0].adds) + Ids(events[1..])
  }

  lemma {:induction false} IdsOfConcat(a: seq<Event>, b: seq<Event>)
    ensures Ids(a + b) == Ids(a) + Ids(b)
  {
    if a == [] {
      assert a + b == b;
    } else {
      assert (a + b)[1..] == a[1..] + b;
      IdsOfConcat(a[1..], b);
    }
  }

  lemma {:induction false} EachHandledOnce(events: seq<Event>)
    ensures multiset(Drained(events)) == Ids(events)
    ensures |Drained(events)| == Weight(events)
    decreases Weight(events)
  {
    if events != [] {
      var rest := events[1..] + events[0].adds;
      WeightOfConcat(events[1..], events[0].adds);
      IdsOfConcat(events[1..], events[0].adds);
      EachHandledOnce(rest);
    }
  }

  // Without events that handlers add, the order is that of the queue.
  lemma {:induction false} HandledInOrder(events: seq<Event>)
    requires forall i | 0 <= i < |events| :: events[i].adds == []
    ensures |Drained(events)| == |events|
    ensures forall i | 0 <= i < |events| :: Drained(events)[i] == events[i].id
  {
    if events != [] {
      assert events[1..] + events[0].adds == events[1..];
      HandledInOrder(events[1..]);
    }
  }

  function IdsInOrder(events: seq<Event>): (ids: seq<nat>)
    ensures |ids| == |events| && forall i | 0 <= i < |ids| :: ids[i] == events[i].id
  {
    seq(|events|, i requires 0 <= i < |events| => events[i].id)
  }

  // What the handlers of these events add, in the order in which they add it.
  function Added(events: seq<Event>): seq<Event> {
    if events == [] then [] else events[0].adds + Added(events[1..])
  }

  // Events wait their turn: all that are pending are handled in queue order before any
  // that their handlers add, and those then in the order in which they were added.
  lemma {:induction false} PendingBeforeAdded(events: seq<Event>, later: seq<Event>)
    ensures Drained(events + later) == IdsInOrder(events) + Drained(later + Added(events))
    decreases |events|
  {
    if events == [] {
      assert events + later == later + Added(events) == later;
    } else {
      var rest := events[1..];
      assert (events + later)[1..] + events[0].adds == rest + (later + events[0].adds);
      PendingBeforeAdded(rest, later + events[0].adds);
      assert later + events[0].adds + Added(rest) == later + Added(events);
      assert IdsInOrder(events) == [events[0].id] + IdsInOrder(rest);
    }
  }

  // So draining goes by generations.
  lemma DrainedByGeneration(events: seq<Event>)
    ensures Drained(events) == IdsInOrder(events) + Drained(Added(events))
  {
    PendingBeforeAdded(events, []);
    assert events + [] == events && [] + Added(events) == Added(events);
  }

  // What has been handled, and what is left, when dispatching stops after n events.
  function Handled(events: seq<Event>, n: nat): seq<nat>
    decreases n
  {
    if n == 0 || events == [] then [] else [events[0].id] + Handled(events[1..] + events[0].adds, n - 1)
  }

  function Rest(events: seq<Event>, n: nat): seq<Event>
    decreases n
  {
    if n == 0 || events == [] then events else Rest(events[1..] + events[0].adds, n - 1)
  }

  // No event is lost or handled twice by stopping and going on.
  lemma {:induction false} HandledThenRest(events: seq<Event>, n: nat)
    ensures Handled(events, n) + Drained(Rest(events, n)) == Drained(events)
    decreases n
  {
    if n > 0 && events != [] {
      HandledThenRest(events[1..] + events[0].adds, n - 1);
    }
  }

  lemma {:induction false} HandledNext(events: seq<Event>, n: nat)
    requires Rest(events, n) != []
    ensures Handled(events, n + 1) == Handled(events, n) + [Rest(events, n)[0].id]
    ensures Rest(events, n + 1) == Rest(events, n)[1..] + Rest(events, n)[0].adds
    decreases n
  {
    if n == 0 {
      assert Handled(events[1..] + events[0].adds, 0) == [];
    } else if events != [] {
      HandledNext(events[1..] + events[0].adds, n - 1);
    }
  }

  // There is nothing to handle after the last event.
  lemma {:induction false} HandledAll(events: seq<Event>, n: nat, more: nat)
    requires Rest(events, n) == [] && n <= more
    ensures Handled(events, more) == Handled(events, n) && Rest(events, more) == []
    decreases n
  {
    if n > 0 && events != [] {
      HandledAll(events[1..] + events[0].adds, n - 1, more - 1);
    }
  }

  lemma {:induction false} AllHandled(events: seq<Event>)
    ensures Handled(events, Weight(events)) == Drained(events) && Rest(events, Weight(events)) == []
    ensures events == Rest(events, 0) && Handled(events, 0) == []
    decreases Weight(events)
  {
    if events != [] {
      WeightOfConcat(events[1..], events[0].adds);
      AllHandled(events[1..] + events[0].adds);
    }
  }

  // --------------------------------------------------------------------- steps

  function Obtain(s: State, q: nat): State {
    s.(queues := s.queues[q := []],
       readers := s.readers + 1,
       intents := s.intents[s.next := Intent(q, true, false, 0, 0)],
       next := s.next + 1,
       dispatched := s.dispatched + Drained(Pending(s, q)))
  }

  // obtain_read_intent fails after n events have been handled.
  function FailObtain(s: State, q: nat, n: nat): State {
    s.(queues := s.queues[q := Rest(Pending(s, q), n)], dispatched := s.dispatched + Handled(Pending(s, q), n))
  }

  function Cancel(s: State, i: nat): State
    requires i in s.intents
  {
    var x := s.intents[i];
    if x.finalized then s
    else s.(readers := s.readers - 1, intents := s.intents[i := x.(finalized := true, lowered := x.lowered + 1)])
  }

  // The events of a successful read go to the queue q; a failed one has lowered the
  // reader count all the same, but the intent is left open.
  function Read(s: State, i: nat, ok: bool, q: nat, events: seq<Event>): State
    requires i in s.intents
  {
    var x := s.intents[i];
    if x.finalized then s
    else if ok then
      s.(readers := s.readers - 1,
         queues := s.queues[q := Pending(s, q) + events],
         intents := s.intents[i := x.(finalized := true, lowered := x.lowered + 1)])
    else
      s.(readers := s.readers - 1,
         intents := s.intents[i := x.(lowered := x.lowered + 1, failures := x.failures + 1)],
         failed := s.failed + 1)
  }

  function Drop(s: State, i: nat): State
    requires i in s.intents
  {
    var s1 := Cancel(s, i);
    s1.(intents := s1.intents[i := s1.intents[i].(live := false)])
  }

  datatype Op =
    | ObtainIntent(q: nat)
    | ObtainFails(q: nat, handled: nat)
    | CancelIntent(i: nat)
    | ReadEvents(i: nat, ok: bool, q: nat, events: seq<Event>)
    | DropIntent(i: nat)

  predicate Enabled(s: State, op: Op) {
    op.ObtainIntent? || op.ObtainFails? || (op.i in s.intents && s.intents[op.i].live)
  }

  function Step(s: State, op: Op): State
    requires Enabled(s, op)
  {
    match op
    case ObtainIntent(q) => Obtain(s, q)
    case ObtainFails(q, n) => FailObtain(s, q, n)
    case CancelIntent(i) => Cancel(s, i)
    case ReadEvents(i, ok, q, events) => Read(s, i, ok, q, events)
    case DropIntent(i) => Drop(s, i)
  }

  // The state a run of operations ends in, if each was possible in its turn.
  function Run(s: State, ops: seq<Op>): Option<State>
    decreases |ops|
  {
    if ops == [] then Some(s)
    else if Enabled(s, ops[0]) then Run(Step(s, ops[0]), ops[1..])
    else None
  }

  // ---------------------------------------------------------------- invariant

  // The intents that still stand: those to come out of scope unfinalized.
  function Open(s: State): set<nat> {
    set i | i in s.intents && s.intents[i].live && !s.intents[i].finalized
  }

  predicate IntentOK(s: State, i: nat) {
    i in s.intents ==>
      var x := s.intents[i];
      && i < s.next
      && x.lowered == x.failures + (if x.finalized then 1 else 0)
      && (!x.live ==> x.finalized)
      && x.failures <= s.failed
  }

  ghost predicate Inv(s: State) {
    && s.readers == |Open(s)| - s.failed
    && (forall i: nat :: IntentOK(s, i))
  }

  lemma StepInv(s: State, op: Op)
    requires Inv(s) && Enabled(s, op)
    ensures Inv(Step(s, op))
  {
    forall i: nat ensures IntentOK(Step(s, op), i) {
      StepIntent(s, op, i);
    }
    StepReaders(s, op);
  }

  lemma StepIntent(s: State, op: Op, i: nat)
    requires IntentOK(s, i) && Enabled(s, op)
    ensures IntentOK(Step(s, op), i)
  {
  }

  lemma StepReaders(s: State, op: Op)
    requires IntentOK(s, s.next) && s.readers == |Open(s)| - s.failed && Enabled(s, op)
    ensures Step(s, op).readers == |Open(Step(s, op))| - Step(s, op).failed
  {
    StepOpens(s, op);
    if Closes(s, op) {
      assert op.i in Open(s);
    }
  }

  predicate Closes(s: State, op: Op)
    requires Enabled(s, op)
  {
    !op.ObtainIntent? && !op.ObtainFails? && !s.intents[op.i].finalized && (op.ReadEvents? ==> op.ok)
  }

  lemma StepOpens(s: State, op: Op)
    requires IntentOK(s, s.next) && Enabled(s, op)
    ensures Open(Step(s, op))
      == if op.ObtainIntent? then Open(s) + {s.next} else if Closes(s, op) then Open(s) - {op.i} else Open(s)
  {
  }

  lemma {:induction false} RunInv(s: State, ops: seq<Op>)
    requires Inv(s) && Run(s, ops).Some?
    ensures Inv(Run(s, ops).value)
    decreases |ops|
  {
    if ops != [] {
      StepInv(s, ops[0]);
      RunInv(Step(s, ops[0]), ops[1..]);
    }
  }

  // ----------------------------------------------------------------- theorems

  // The display's reader count falls short of the open intents by exactly the number
  // of failed reads; so it is right if and only if no read has failed.
  lemma ReadersConserved(ops: seq<Op>)
    requires Run(INITIAL, ops).Some?
    ensures var s := Run(INITIAL, ops).value;
      && s.readers == |Open(s)| - s.failed
      && (s.readers == |Open(s)| <==> s.failed == 0)
  {
    assert Open(INITIAL) == {};
    RunInv(INITIAL, ops);
  }

  // An intent is finalized at the latest when it goes out of scope.  It lowers the
  // count once, plus once for every read of its own that failed.
  lemma ResolvedOnce(ops: seq<Op>, i: nat)
    requires Run(INITIAL, ops).Some? && i in Run(INITIAL, ops).value.intents
    ensures var s := Run(INITIAL, ops).value; var x := s.intents[i];
      && (!x.live ==> x.finalized)
      && x.lowered == x.failures + (if x.finalized then 1 else 0)
      && (s.failed == 0 ==> (x.lowered == 1 <==> x.finalized) && x.lowered <= 1)
  {
    assert Open(INITIAL) == {};
    RunInv(INITIAL, ops);
    assert IntentOK(Run(INITIAL, ops).value, i);
  }

  // Once finalized, an intent never touches the display again.
  lemma FinalizedIsInert(s: State, op: Op)
    requires Enabled(s, op) && !op.ObtainIntent? && !op.ObtainFails? && s.intents[op.i].finalized
    ensures Step(s, op).readers == s.readers && Step(s, op).queues == s.queues
    ensures Step(s, op).intents[op.i].finalized && Open(Step(s, op)) == Open(s)
  {
  }

  // What an operation does to an intent and to the reader count: an intent is finalized
  // exactly by a cancel, a successful read or the end of its scope; an operation on one
  // that was not lowers the count, and obtaining one raises it.
  lemma StepExactly(s: State, op: Op, i: nat)
    requires Inv(s) && Enabled(s, op) && i in s.intents
    ensures var t := Step(s, op);
      && i in t.intents && t.intents[i].queue == s.intents[i].queue
      && (t.intents[i].finalized <==> s.intents[i].finalized || Finalizes(op, i))
      && (t.intents[i].live <==> s.intents[i].live && op != DropIntent(i))
      && t.readers == s.readers + ReadersGained(s, op)
  {
    assert IntentOK(s, s.next);
  }

  predicate Finalizes(op: Op, i: nat) {
    op == CancelIntent(i) || op == DropIntent(i) || (op.ReadEvents? && op.i == i && op.ok)
  }

  function ReadersGained(s: State, op: Op): int
    requires Enabled(s, op)
  {
    if op.ObtainIntent? then 1
    else if op.ObtainFails? || s.intents[op.i].finalized then 0
    else -1
  }

  // A queue loses events only by obtaining an intent for it, and what then leaves it is
  // handled; only a read brings events, behind those that are there.
  lemma QueuesExactly(s: State, op: Op, q: nat)
    requires Enabled(s, op)
    ensures var t := Step(s, op);
      && (op.ObtainIntent? && op.q == q ==>
            Pending(t, q) == [] && t.dispatched == s.dispatched + Drained(Pending(s, q)))
      && (op.ObtainFails? && op.q == q ==>
            t.dispatched + Drained(Pending(t, q)) == s.dispatched + Drained(Pending(s, q)))
      && (op.ReadEvents? && op.q == q && op.ok && !s.intents[op.i].finalized ==>
            Pending(t, q) == Pending(s, q) + op.events)
      && ((op.CancelIntent? || op.DropIntent? || op.q != q
           || (op.ReadEvents? && (!op.ok || s.intents[op.i].finalized))) ==> Pending(t, q) == Pending(s, q))
      && (!op.ObtainIntent? && !op.ObtainFails? ==> t.dispatched == s.dispatched)
  {
    if op.ObtainFails? && op.q == q {
      HandledThenRest(Pending(s, q), op.handled);
    }
  }

  // A failed attempt loses nothing: when an intent is obtained later, the same events
  // have been handled in the same order as if there had been no failure.
  lemma FailureLosesNothing(s: State, q: nat, n: nat)
    ensures Obtain(FailObtain(s, q, n), q).dispatched == Obtain(s, q).dispatched
    ensures Obtain(FailObtain(s, q, n), q) == Obtain(s, q)
  {
    HandledThenRest(Pending(s, q), n);
    var pending := Pending(s, q);
    assert s.dispatched + Handled(pending, n) + Drained(Rest(pending, n)) == s.dispatched + Drained(pending);
    assert FailObtain(s, q, n).queues[q := []] == s.queues[q := []];
  }

  // A failed read followed by the end of the scope lowers the count twice for one
  // announcement, here to less than nothing.
  lemma FailedReadCancelsTwice(q: nat)
    ensures var ops := [ObtainIntent(q), ReadEvents(0, false, q, []), DropIntent(0)];
      Run(INITIAL, ops).Some? && Run(INITIAL, ops).value.readers == -1
  {
    var s1 := Obtain(INITIAL, q);
    var s2 := Read(s1, 0, false, q, []);
    var s3 := Drop(s2, 0);
    var a, b, c := ObtainIntent(q), ReadEvents(0, false, q, []), DropIntent(0);
    assert [a, b, c][1..] == [b, c] && [b, c][1..] == [c] && [c][1..] == [];
    assert Run(s3, []) == Some(s3);
    assert Run(s2, [c]) == Some(s3);
    assert Run(s1, [b, c]) == Some(s3);
  }

  // What a read brings is handled after what was pending, by the time the next intent
  // for that queue is obtained.
  lemma ReadIsHandled(s: State, i: nat, q: nat, events: seq<Event>)
    requires i in s.intents && !s.intents[i].finalized
    requires forall e | e in Pending(s, q) + events :: e.adds == []
    ensures var t := Obtain(Read(s, i, true, q, events), q);
      && Pending(t, q) == []
      && |t.dispatched| == |s.dispatched| + |Pending(s, q)| + |events|
      && t.dispatched[..|s.dispatched|] == s.dispatched
      && (forall n | 0 <= n < |Pending(s, q)| :: t.dispatched[|s.dispatched| + n] == Pending(s, q)[n].id)
      && (forall n | 0 <= n < |events| :: t.dispatched[|s.dispatched| + |Pending(s, q)| + n] == events[n].id)
  {
    var all := Pending(s, q) + events;
    HandledInOrder(all);
    assert Pending(Read(s, i, true, q, events), q) == all;
    assert forall n | 0 <= n < |events| :: all[|Pending(s, q)| + n] == events[n];
  }

  // ---------------------------------------------------------- imperative form

  datatype Broken = Broken(after: nat, errno: nat)

  function Next<T>(errors: seq<Option<T>>): Option<T> {
    if errors == [] then None else errors[0]
  }

  function Later<T>(errors: seq<Option<T>>): seq<Option<T>> {
    if errors == [] then [] else errors[1..]
  }

  // What obtaining an intent comes to, given what libwayland reports and what is pending.
  function Outcome(prepare: seq<Option<nat>>, dispatch: seq<Option<Broken>>, pending: seq<Event>, id: nat)
    : Result<nat, Error>
  {
    if Next(prepare).Some? then Err(SystemError(Next(prepare).value))
    else if pending == [] then Ok(id)
    else if Next(dispatch).Some? then Err(SystemError(Next(dispatch).value.errno))
    else if Next(Later(prepare)).Some? then Err(SystemError(Next(Later(prepare)).value))
    else Ok(id)
  }

  // And how many events have been handled by then.
  function HandledBefore(prepare: seq<Option<nat>>, dispatch: seq<Option<Broken>>, pending: seq<Event>): nat {
    if Next(prepare).Some? || pending == [] then 0
    else if Next(dispatch).Some? then Next(dispatch).value.after
    else Weight(pending)
  }

  class Display {
    var queues: map<nat, seq<Event>>
    var readers: int
    var intents: map<nat, Intent>
    var next: nat
    var dispatched: seq<nat>
    ghost var failed: nat
    // What the next calls of libwayland will report: an error of the announcement other
    // than that events are pending, and an error of dispatching after some events.
    var prepareErrors: seq<Option<nat>>
    var dispatchErrors: seq<Option<Broken>>

    ghost function Now(): State
      reads this
    {
      State(queues, readers, intents, next, dispatched, failed)
    }

    constructor (prepareErrors: seq<Option<nat>>, dispatchErrors: seq<Option<Broken>>)
      ensures Now() == INITIAL && Inv(Now())
      ensures this.prepareErrors == prepareErrors && this.dispatchErrors == dispatchErrors
    {
      queues, readers, intents, next, dispatched, failed := map[], 0, map[], 0, [], 0;
      this.prepareErrors, this.dispatchErrors := prepareErrors, dispatchErrors;
      new;
      assert Open(INITIAL) == {};
    }

    // Announces a reader, but only if the queue is empty.
    method WlDisplayPrepareReadQueue(q: nat) returns (errno: Option<nat>)
      modifies this`readers, this`prepareErrors
      ensures prepareErrors == Later(old(prepareErrors))
      ensures errno == if Next(old(prepareErrors)).Some? then Next(old(prepareErrors))
                       else if Pending(Now(), q) != [] then Some(EAGAIN) else None
      ensures readers == old(readers) + (if errno.None? then 1 else 0)
    {
      errno := Next(prepareErrors);
      prepareErrors := Later(prepareErrors);
      if errno.None? {
        if q in queues && queues[q] != [] {
          errno := Some(EAGAIN);
        } else {
          readers := readers + 1;
        }
      }
    }

    // Handles events in order until the queue is empty, or an error ends it.
    method WlDisplayDispatchQueuePending(q: nat) returns (error: Option<nat>)
      requires q in queues
      modifies this`queues, this`dispatched, this`dispatchErrors
      ensures dispatchErrors == Later(old(dispatchErrors))
      ensures match Next(old(dispatchErrors))
        case None => error == None && Now() == FailObtain(old(Now()), q, Weight(old(queues[q]))) && queues[q] == []
        case Some(broken) => error == Some(broken.errno) && Now() == FailObtain(old(Now()), q, broken.after)
    {
      var broken := Next(dispatchErrors);
      dispatchErrors := Later(dispatchErrors);
      ghost var was := queues[q];
      var n := 0;
      while queues[q] != [] && (broken.None? || n < broken.value.after)
        invariant q in queues && queues == old(queues)[q := Rest(was, n)]
        invariant dispatched == old(dispatched) + Handled(was, n)
        invariant n + Weight(queues[q]) == Weight(was)
        invariant broken.Some? ==> n <= broken.value.after
        invariant dispatchErrors == Later(old(dispatchErrors))
        decreases Weight(queues[q])
      {
        var event := queues[q][0];
        HandledNext(was, n);
        WeightOfConcat(queues[q][1..], event.adds);
        queues := queues[q := queues[q][1..] + event.adds];
        dispatched := dispatched + [event.id];
        n := n + 1;
      }
      if queues[q] == [] {
        HandledAll(was, n, if broken.None? then Weight(was) else broken.value.after);
      }
      error := if broken.None? then None else Some(broken.value.errno);
    }

    // The queue is dispatched until the announcement succeeds.  The loop ends because
    // a successful dispatch leaves nothing pending.  Whatever fails, and whenever, the
    // reader count and the intents are as before, and the events not handled yet are
    // still there.
    method ObtainReadIntent(q: nat) returns (r: Result<nat, Error>)
      requires Inv(Now()) && Some(EAGAIN) !in prepareErrors
      modifies this
      ensures Inv(Now())
      ensures r.Ok? ==> Now() == Step(old(Now()), ObtainIntent(q))
      ensures r.Ok? ==> r.value == old(next) && r.value in Open(Now()) && Pending(Now(), q) == []
      ensures r.Err? ==> Now() == Step(old(Now()), ObtainFails(q, HandledBefore(old(prepareErrors), old(dispatchErrors),
                                                                               Pending(old(Now()), q))))
      ensures r == Outcome(old(prepareErrors), old(dispatchErrors), Pending(old(Now()), q), old(next))
    {
      ghost var s, pending := Now(), Pending(Now(), q);
      ghost var n := HandledBefore(prepareErrors, dispatchErrors, pending);
      StepInv(s, ObtainIntent(q));
      StepInv(s, ObtainFails(q, n));
      AllHandled(pending);
      if q !in queues {
        queues := queues[q := []];
      }
      var error := Announce(q);
      if error.Some? {
        assert Now() == FailObtain(s, q, n);
        return Err(SystemError(error.value));
      }
      r := Ok(next);
      intents := intents[next := Intent(q, true, false, 0, 0)];
      next := next + 1;
      assert Now() == Obtain(s, q);
    }

    // The loop; the queue need not have had any events yet.
    method Announce(q: nat) returns (error: Option<nat>)
      requires q in queues && Some(EAGAIN) !in prepareErrors
      modifies this`queues, this`dispatched, this`dispatchErrors, this`readers, this`prepareErrors
      ensures error == match Outcome(old(prepareErrors), old(dispatchErrors), old(queues[q]), 0)
                       case Ok(_) => None
                       case Err(e) => Some(e.errno)
      ensures readers == old(readers) + (if error.None? then 1 else 0)
      ensures var n := HandledBefore(old(prepareErrors), old(dispatchErrors), old(queues[q]));
        && queues == old(queues)[q := Rest(old(queues[q]), n)]
        && dispatched == old(dispatched) + Handled(old(queues[q]), n)
      ensures error.None? ==> queues[q] == []
    {
      ghost var pending := queues[q];
      AllHandled(pending);
      var errno := WlDisplayPrepareReadQueue(q);
      ghost var again := false;
      while errno.Some?
        invariant readers == old(readers) + (if errno.None? then 1 else 0)
        invariant q in queues && queues == old(queues)[q := Rest(pending, if again then Weight(pending) else 0)]
        invariant dispatched == old(dispatched) + Handled(pending, if again then Weight(pending) else 0)
        invariant !again ==> prepareErrors == Later(old(prepareErrors)) && dispatchErrors == old(dispatchErrors)
        invariant !again ==> errno == if Next(old(prepareErrors)).Some? then Next(old(prepareErrors))
                                      else if pending != [] then Some(EAGAIN) else None
        invariant again ==> Next(old(prepareErrors)).None? && pending != [] && Next(old(dispatchErrors)).None?
        invariant again ==> errno == Next(Later(old(prepareErrors)))
        decreases Weight(queues[q])
      {
        if errno.value != EAGAIN {
          return errno;
        }
        error := WlDisplayDispatchQueuePending(q);
        if error.Some? {
          return;
        }
        errno := WlDisplayPrepareReadQueue(q);
        again := true;
      }
      error := None;
    }

    method WlDisplayCancelRead()
      modifies this`readers
      ensures readers == old(readers) - 1
    {
      readers := readers - 1;
    }

    // The announcement is taken back whether or not the read succeeds.
    method WlDisplayReadEvents(errno: Option<nat>, q: nat, events: seq<Event>) returns (error: Option<nat>)
      modifies this`readers, this`queues
      ensures readers == old(readers) - 1 && error == errno
      ensures queues == if errno.None? then old(queues)[q := Pending(old(Now()), q) + events] else old(queues)
    {
      readers := readers - 1;
      if errno.None? {
        queues := queues[q := (if q in queues then queues[q] else []) + events];
      }
      error := errno;
    }

    method CancelRead(i: nat) returns (r: Result<(), Error>)
      requires Inv(Now()) && i in intents
      modifies this`readers, this`intents
      ensures Now() == Cancel(old(Now()), i)
      ensures r == if old(intents)[i].finalized then Err(Finalized) else Ok(())
    {
      if intents[i].finalized {
        return Err(Finalized);
      }
      WlDisplayCancelRead();
      intents := intents[i := intents[i].(finalized := true, lowered := intents[i].lowered + 1)];
      r := Ok(());
    }

    // `errno` is what the C call will report, `events` what it will find for queue q.
    method ReadIntentEvents(i: nat, errno: Option<nat>, q: nat, events: seq<Event>) returns (r: Result<(), Error>)
      requires Inv(Now()) && i in intents && intents[i].live
      modifies this
      ensures Now() == Step(old(Now()), ReadEvents(i, errno.None?, q, events)) && Inv(Now())
      ensures r == if old(intents)[i].finalized then Err(Finalized)
                   else if errno.Some? then Err(SystemError(errno.value)) else Ok(())
    {
      StepInv(Now(), ReadEvents(i, errno.None?, q, events));
      if intents[i].finalized {
        return Err(Finalized);
      }
      var error := WlDisplayReadEvents(errno, q, events);
      intents := intents[i := intents[i].(lowered := intents[i].lowered + 1)];
      if error.Some? {
        intents := intents[i := intents[i].(failures := intents[i].failures + 1)];
        failed := failed + 1;
        return Err(SystemError(error.value));
      }
      intents := intents[i := intents[i].(finalized := true)];
      r := Ok(());
    }

    // The destructor swallows the exception that cancel might throw.
    method DestroyIntent(i: nat)
      requires Inv(Now()) && i in intents && intents[i].live
      modifies this
      ensures Now() == Step(old(Now()), DropIntent(i)) && Inv(Now())
    {
      StepInv(Now(), DropIntent(i));
      if !intents[i].finalized {
        var _ := CancelRead(i);
      }
      intents := intents[i := intents[i].(live := false)];
    }
  }
}
