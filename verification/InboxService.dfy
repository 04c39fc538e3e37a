/** The inbox methods of the agent loop, as they update its fields, for one session key. */
module InboxService {
  import opened Wrappers
  import opened InboxModel
  import opened InboxProofs
  import opened InboxExclusion
  import opened InboxTheorems

  class SessionInbox {
    var registered: Option<nat>
    var workers: seq<Worker>
    var active: set<nat>
    var deferred: seq<Msg>
    var reclaims: map<nat, Reclaim>
    var lock: Option<Holder>
    ghost var inline: Option<Inline>
    ghost var orphaned: set<nat>
    ghost var popped: bool
    ghost var logs: Logs
    var waiters: set<string>

    constructor ()
      ensures State() == IDLE
    {
      registered, workers, active, deferred, reclaims := None, [], {}, [], map[];
      lock, inline, orphaned, popped, logs, waiters := None, None, {}, false, EMPTY_LOGS, {};
    }

    ghost function State(): Inbox
      reads this
    {
      Inbox(registered, workers, active, deferred, reclaims, lock, inline, orphaned, popped, logs, waiters)
    }

    /** `AutomationTurnCoordinator.complete`: the waiter for the message's turn, if any, is resolved. */
    method Complete(m: Msg)
      modifies `waiters
      ensures waiters == old(waiters) - Turns([m])
    {
      if m.turn.Some? {
        waiters := waiters - {m.turn.value};
      }
    }

    /** `AutomationTurnCoordinator.submit`: a turn already waited for is refused. */
    method Submit(m: Msg) returns (ok: bool)
      requires m.kind != Continuation
      requires registered.Some? ==> registered.value < |workers|
      modifies this
      ensures ok == Enabled(old(State()), Action.Submit(m))
      ensures ok <==> m.turn.Some? && m.turn.value !in old(waiters)
      ensures waiters == old(waiters) + if ok then {m.turn.value} else {}
      ensures State() == if ok then Step(old(State()), Action.Submit(m)) else old(State())
      ensures old(InboxOk(State())) ==> InboxOk(State())
    {
      SubmissionIsOk(State(), m);
      hide InboxOk, IsServed;
      if m.turn.None? || m.turn.value in waiters {
        return false;
      }
      waiters := waiters + {m.turn.value};
      assert waiters == old(waiters) + Turns([m]);
      EnqueueSessionMessage(m);
      ok := true;
    }

    /** The message waits, deferred or in the session's queue, and somebody is there to take it. */
    method EnqueueSessionMessage(m: Msg)
      requires registered.Some? ==> registered.value < |workers|
      modifies this
      ensures State() == EnqueueStep(old(State()), m)
      ensures registered.Some? && registered.value < |workers|
      ensures m in deferred || m in workers[registered.value].queue
      // A turn that wants an idle session comes behind those already deferred; anything else goes to the end of the
      // session's queue, and the first message starts a worker that has nothing else.
      ensures m.defers && old(registered).Some? ==> deferred == old(deferred) + [m] && workers == old(workers)
      ensures !m.defers || old(registered).None? ==> deferred == old(deferred)
      ensures !m.defers && old(registered).Some? ==>
                && registered == old(registered) && |workers| == |old(workers)|
                && workers[registered.value].queue == old(workers[registered.value].queue) + [m]
                && workers[registered.value].phase == old(workers[registered.value].phase)
                && forall v :: 0 <= v < |workers| && v != registered.value ==> workers[v] == old(workers[v])
      ensures old(registered).None? ==>
                && registered == Some(|old(workers)|) && |workers| == |old(workers)| + 1
                && workers[..|old(workers)|] == old(workers) && workers[|old(workers)|].queue == [m]
                && workers[|old(workers)|].phase == Scheduled && active == old(active) + {|old(workers)|}
      ensures old(InboxOk(State())) && (inline.Some? ==> !Injectable(m)) ==>
                InboxOk(State()) && IsServed(State(), registered.value)
    {
      AdmissionIsOk(State(), m);
      hide InboxOk, IsServed;
      logs := logs.(admitted := logs.admitted + multiset{m});
      if m.defers && registered.Some? {
        deferred := deferred + [m];
        logs := logs.(postponed := logs.postponed + [m]);
        return;
      }
      if registered.Some? {
        var pending := workers[registered.value];
        assert m in pending.queue + [m];
        pending := pending.(queue := pending.queue + [m], arrived := pending.arrived + [m]);
        workers := workers[registered.value := pending];
        return;
      }
      var w := |workers|;
      registered := Some(w);
      workers := workers + [Worker([m], Scheduled, [m], [], [])];
      active := active + {w};
      popped := false;
    }

    /** One turn of the loop of `_run_session_queue`: the message to dispatch, or the end of the worker. */
    method NextMessage(w: nat) returns (m: Option<Msg>)
      requires Enabled(State(), Take(w))
      modifies this
      ensures State() == TakeStep(old(State()), w)
      ensures m == if workers[w].phase.Dispatching? then Some(workers[w].phase.msg) else None
      ensures old(InboxOk(State())) ==> InboxOk(State())
      // A message is only taken by the one worker that has its queue, and a worker ends only when nothing waits in it.
      ensures old(InboxOk(State())) && m.Some? ==> registered == Some(w) && IsOnlyWorker(State(), w)
      // The queue goes first, from its front; then the deferred turns, the one deferred first before the others.
      ensures old(registered) == Some(w) && old(workers[w].queue) != [] ==>
                && m == Some(old(workers[w].queue[0])) && workers[w].queue == old(workers[w].queue)[1..]
                && deferred == old(deferred)
      ensures old(registered) == Some(w) && old(workers[w].queue) == [] && old(deferred) != [] ==>
                m == Some(old(deferred[0])) && deferred == old(deferred)[1..] && workers[w].queue == []
      ensures m.Some? ==> old(registered) == Some(w) && workers[w].phase == Dispatching(m.value, None)
      ensures m.None? ==> registered != Some(w) && !Live(workers, w) && workers[w].queue == []
      ensures m.None? && old(registered) == Some(w) ==> old(workers[w].queue) == [] && old(deferred) == []
    {
      TakingIsOk(State(), w);
      hide InboxOk, IsOnlyWorker;
      ghost var before := State();
      var worker := workers[w];
      if registered != Some(w) {
        workers := workers[w := Emptied(worker).(phase := Exited)];
        logs := logs.(stranded := logs.stranded + multiset(worker.queue));
        m := None;
      } else if worker.queue != [] {
        m := Some(worker.queue[0]);
        workers := workers[w := worker.(queue := worker.queue[1..], phase := Dispatching(worker.queue[0], None),
                                        served := worker.served + [worker.queue[0]],
                                        left := worker.left + [worker.queue[0]])];
      } else if deferred != [] {
        m := Some(deferred[0]);
        workers := workers[w := worker.(phase := Dispatching(deferred[0], None))];
        logs := logs.(resumed := logs.resumed + [deferred[0]]);
        deferred := deferred[1..];
      } else {
        workers := workers[w := worker.(phase := Exited)];
        registered := None;
        m := None;
      }
      assert State() == TakeStep(before, w);
      TakingTells(before, w);
      hide TakeStep;
    }

    /** Takes message after message from a queue and completes it with an error. */
    method CompleteAll(queue: seq<Msg>)
      modifies `waiters, `logs
      ensures waiters == old(waiters) - Turns(queue)
      ensures logs == old(logs).(cancelled := old(logs.cancelled) + multiset(queue))
    {
      hide Turns;
      var pending := queue;
      ghost var i := 0;
      TurnsAppend([], []);
      while pending != []
        invariant 0 <= i <= |queue| && pending == queue[i..]
        invariant waiters == old(waiters) - Turns(queue[..i])
        invariant logs == old(logs).(cancelled := old(logs.cancelled) + multiset(queue[..i]))
        decreases |pending|
      {
        assert queue[..i + 1] == queue[..i] + [queue[i]];
        TurnsAppend(queue[..i], [queue[i]]);
        var m := pending[0];
        pending := pending[1..];
        Complete(m);
        logs := logs.(cancelled := logs.cancelled + multiset{m});
        i := i + 1;
      }
      assert queue[..i] == queue;
    }

    /** `_cancel_pending_messages`: the deferred turns join the queue, then every message in it is completed. */
    method CancelPendingMessages(w: nat)
      requires w < |workers|
      modifies this
      ensures State() == CancelPending(old(State()), w)
      ensures |workers| == |old(workers)| && workers[w].queue == [] == deferred
      ensures forall t :: t in waiters <==>
                t in old(waiters) && forall m :: m in old(workers[w].queue) + old(deferred) ==> m.turn != Some(t)
    {
      hide Turns;
      var worker := workers[w];
      CompleteAll(worker.queue + deferred);
      TurnsAppend(worker.queue, deferred);
      TurnsIn(worker.queue + deferred);
      logs := logs.(resumed := logs.resumed + deferred);
      deferred := [];
      workers := workers[w := Emptied(worker)];
    }

    /** The cleanup of a worker cancelled while it dispatches. */
    method WorkerCancelled(w: nat)
      requires IsDispatching(State(), w)
      modifies this
      ensures State() == CancelDispatchStep(old(State()), w)
    {
      ghost var before := State();
      var worker := workers[w];
      Complete(worker.phase.msg);
      logs := logs.(cancelled := logs.cancelled + multiset{worker.phase.msg});
      workers := workers[w := worker.(queue := Held(worker) + worker.queue, phase := Exited)];
      if lock == Some(Turn(w)) {
        lock := None;
      }
      assert State() == CancelTurnStep(before, w);
      assert registered == before.registered;
      hide CancelTurnStep, CancelPending;
      CancelPendingMessages(w);
      if registered == Some(w) {
        registered := None;
      }
    }

    /** The end of `_cancel_active_tasks`, once its tasks are awaited. */
    method ReclaimInbox(call: nat)
      requires Enabled(State(), CancelEnd(call))
      requires reclaims[call].pending.Some? ==> reclaims[call].pending.value < |workers|
      modifies this
      ensures State() == CancelEndStep(old(State()), call)
    {
      var r := reclaims[call];
      reclaims := reclaims - {call};
      if r.tasks != {} && r.pending.Some? && registered == r.pending {
        registered := None;
        orphaned := orphaned + if Live(workers, r.pending.value) then {r.pending.value} else {};
        CancelPendingMessages(r.pending.value);
      }
    }

    /** `maybe_continue_turn`: the continuation goes to the queue the turn was given, whether or not it is served. */
    method ContinueTurn(w: nat, id: nat)
      requires Enabled(State(), Continue(w, id))
      modifies this
      ensures State() == Step(old(State()), Continue(w, id))
      ensures |workers| == |old(workers)| && workers[w].phase.Dispatching?
              && workers[w].queue == old(workers[w].queue) + [workers[w].phase.msg.(id := id, kind := Continuation)]
              && workers[w].phase == old(workers[w].phase)
      ensures old(InboxOk(State())) ==> InboxOk(State())
    {
      ContinuingIsOk(State(), w, id);
      hide InboxOk;
      var worker := workers[w];
      var next := worker.phase.msg.(id := id, kind := Continuation);
      logs := logs.(admitted := logs.admitted + multiset{next});
      workers := workers[w := worker.(queue := worker.queue + [next], arrived := worker.arrived + [next])];
    }

    /** Takes message after message from a queue and forgets it. */
    method DiscardQueue(w: nat) returns (discarded: nat)
      requires w < |workers|
      modifies `workers, `logs
      ensures workers == old(workers)[w := Emptied(old(workers[w]))] && discarded == |old(workers[w].queue)|
      ensures logs == old(logs).(dropped := old(logs.dropped) + multiset(old(workers[w].queue)))
    {
      ghost var all, before := workers, logs;
      ghost var worker := all[w];
      var pending := workers[w];
      discarded := 0;
      assert worker.queue[0..] == worker.queue && worker.left + worker.queue[..0] == worker.left;
      assert all[w := worker] == all;
      while pending.queue != []
        invariant discarded <= |worker.queue| && workers == all[w := pending]
        invariant pending == worker.(queue := worker.queue[discarded..],
                                     left := worker.left + worker.queue[..discarded])
        invariant logs == before.(dropped := before.dropped + multiset(worker.queue[..discarded]))
        decreases |pending.queue|
      {
        assert worker.queue[..discarded + 1] == worker.queue[..discarded] + [worker.queue[discarded]];
        var m := pending.queue[0];
        logs := logs.(dropped := logs.dropped + multiset{m});
        pending := pending.(queue := pending.queue[1..], left := pending.left + [m]);
        assert pending.left == worker.left + worker.queue[..discarded + 1];
        workers := workers[w := pending];
        discarded := discarded + 1;
      }
      assert worker.queue[..discarded] == worker.queue && worker.queue[discarded..] == [];
    }

    /** Pops the session's queue, if it has one, and discards what is in it. */
    method RemoveQueue() returns (discarded: nat)
      requires registered.Some? ==> registered.value < |workers|
      modifies `registered, `popped, `orphaned, `workers, `logs
      ensures State() == StopPopStep(old(State()))
      ensures discarded == if old(registered).Some? then |old(workers[registered.value].queue)| else 0
    {
      discarded := 0;
      if registered.Some? {
        var q := registered.value;
        registered, popped := None, true;
        orphaned := orphaned + if Live(workers, q) then {q} else {};
        discarded := DiscardQueue(q);
      }
    }

    /**
     The end of `cmd_stop`, which takes message after message from the queue it popped and completes none. Waiters stay
     as they are; the session has no queue, and its former worker, if alive, neither drains nor has anything left in it.
     */
    method PopQueue() returns (discarded: nat)
      requires Enabled(State(), InlineEnd) && inline.value.stop
      requires registered.Some? ==> registered.value < |workers|
      modifies this
      ensures State() == Step(old(State()), InlineEnd)
      ensures registered.None? && waiters == old(waiters) && deferred == old(deferred)
      ensures discarded == if old(registered).Some? then |old(workers[registered.value].queue)| else 0
      ensures old(InboxOk(State())) ==>
                InboxOk(State()) &&
                (old(registered).Some? ==>
                   Held(workers[old(registered).value]) == [] == workers[old(registered).value].queue)
    {
      hide InboxOk;
      PoppingIsOk(State());
      ghost var before := State();
      discarded := RemoveQueue();
      inline := None;
      PoppingTells(before);
      hide StopPopStep;
    }
  }

  lemma SubmissionIsOk(s: Inbox, m: Msg)
    ensures InboxOk(s) && Enabled(s, Action.Submit(m)) ==> InboxOk(Step(s, Action.Submit(m)))
  {
    hide InboxOk, Enabled, Step;
    if InboxOk(s) && Enabled(s, Action.Submit(m)) { StepKeepsInbox(s, Action.Submit(m)); }
  }

  /** All other live workers have lost their queues. */
  ghost predicate IsOnlyWorker(s: Inbox, w: nat) {
    forall v: nat :: v != w && Live(s.workers, v) ==> v in s.orphaned
  }

  lemma AdmissionIsOk(s: Inbox, m: Msg)
    ensures InboxOk(s) && (s.inline.Some? ==> !Injectable(m)) ==>
              InboxOk(EnqueueStep(s, m)) && EnqueueStep(s, m).registered.Some?
              && IsServed(EnqueueStep(s, m), EnqueueStep(s, m).registered.value)
  {
    if InboxOk(s) && (s.inline.Some? ==> !Injectable(m)) {
      RegisteredIsWorker(s);
      hide Owned, Exclusive, AllInOrder, InFlight, EnqueueStep, Gone;
      EnqueueKeepsOwned(s, m);
      EnqueueKeepsExclusive(s, m);
      EnqueueKeepsOrder(s, m);
      EnqueueKeepsWaiters(s, m);
      forall e: Msg ensures EnqueueStep(s, m).logs.admitted[e] ==
                              InFlight(EnqueueStep(s, m))[e] + Gone(EnqueueStep(s, m).logs)[e] {
        EnqueueBalances(e, s, m);
      }
      QueueIsThere(s, m);
    }
  }

  lemma QueueIsThere(s: Inbox, m: Msg)
    requires Owned(EnqueueStep(s, m))
    ensures EnqueueStep(s, m).registered.Some?
    ensures IsServed(EnqueueStep(s, m), EnqueueStep(s, m).registered.value)
  {
  }

  lemma EnqueueKeepsWaiters(s: Inbox, m: Msg)
    requires WaitersOk(s)
    ensures WaitersOk(EnqueueStep(s, m))
  {
    var s' := EnqueueStep(s, m);
    assert s'.waiters == s.waiters;
    assert s'.logs == s.logs.(admitted := s.logs.admitted + multiset{m}, postponed := s'.logs.postponed);
    hide InFlight, EnqueueStep, IsFor;
    forall t | t in s'.waiters ensures Carries(InFlight(s') + s'.logs.dropped, t) {
      var e :| e in InFlight(s) + s.logs.dropped && IsFor(e, t);
      EnqueueBalances(e, s, m);
      assert e in InFlight(s') + s'.logs.dropped;
    }
  }

  lemma TakingTells(s: Inbox, w: nat)
    requires Enabled(s, Take(w))
    ensures var (s', worker) := (TakeStep(s, w), TakeStep(s, w).workers[w]);
            && (worker.phase == Exited || worker.phase.Dispatching?)
            && (worker.phase == Exited ==> s'.registered != Some(w) && worker.queue == [])
            && (worker.phase == Exited && s.registered == Some(w) ==> s.workers[w].queue == [] && s.deferred == [])
  {
  }

  lemma TakingIsOk(s: Inbox, w: nat)
    requires Enabled(s, Take(w))
    ensures InboxOk(s) ==>
              && InboxOk(TakeStep(s, w))
              && (Live(TakeStep(s, w).workers, w) ==>
                    TakeStep(s, w).registered == Some(w) && IsOnlyWorker(TakeStep(s, w), w))
  {
    if InboxOk(s) {
      OthersAreOrphans(s);
      hide InboxOk;
      StepKeepsInbox(s, Take(w));
    }
  }

  lemma ContinuingIsOk(s: Inbox, w: nat, id: nat)
    requires Enabled(s, Continue(w, id))
    ensures InboxOk(s) ==> InboxOk(Step(s, Continue(w, id)))
  {
    hide InboxOk, Enabled, Step;
    if InboxOk(s) { StepKeepsInbox(s, Continue(w, id)); }
  }

  lemma PoppingIsOk(s: Inbox)
    requires Enabled(s, InlineEnd)
    ensures InboxOk(s) ==>
              && InboxOk(Step(s, InlineEnd))
              && (s.registered.Some? ==> IsWorker(s, s.registered.value) && Held(s.workers[s.registered.value]) == [])
  {
    if InboxOk(s) {
      hide Owned, Exclusive;
      if s.registered.Some? { StopMeetsNoDrain(s); }
      hide InboxOk, Enabled, Step;
      StepKeepsInbox(s, InlineEnd);
    }
  }

  lemma PoppingTells(s: Inbox)
    requires s.registered.Some? ==> IsWorker(s, s.registered.value)
    ensures var s' := StopPopStep(s);
            && s'.registered.None? && s'.waiters == s.waiters && s'.deferred == s.deferred
            && |s'.workers| == |s.workers|
            && (s.registered.Some? ==>
                  && s'.workers[s.registered.value].queue == []
                  && Held(s'.workers[s.registered.value]) == Held(s.workers[s.registered.value]))
  {
  }

  lemma OthersAreOrphans(s: Inbox)
    requires InboxOk(s)
    ensures forall v: nat :: Live(s.workers, v) ==> s.registered == Some(v) || v in s.orphaned
  {
  }

  lemma TurnsIn(ms: seq<Msg>)
    ensures forall t :: t in Turns(ms) <==> exists m :: m in ms && m.turn == Some(t)
  {
  }

  lemma TurnsAppend(a: seq<Msg>, b: seq<Msg>)
    ensures Turns(a + b) == Turns(a) + Turns(b) && Turns([]) == {}
  {
  }

  // ----- draining ---------------------------------------------------------------------------------

  /** What the messages that arrive during the first `n` conversions are, in order. */
  function Arrivals(arrivals: nat -> seq<Msg>, n: nat): seq<Msg> {
    if n == 0 then [] else Arrivals(arrivals, n - 1) + arrivals(n - 1)
  }

  /** The index of the first message that cannot be converted, or the number of messages. */
  function FirstFailure<R>(ms: seq<Msg>, convert: Msg -> Option<R>): (n: nat)
    ensures n <= |ms| && (forall i :: 0 <= i < n ==> convert(ms[i]).Some?) && (n < |ms| ==> convert(ms[n]).None?)
  {
    if ms == [] || convert(ms[0]).None? then 0 else 1 + FirstFailure(ms[1..], convert)
  }

  class PendingQueue {
    var queue: seq<Msg>

    /** One snapshot of the queue, behind the message that was waited for. */
    method TakeSnapshot(first: Option<Msg>) returns (pending: seq<Msg>)
      modifies this
      ensures queue == [] && pending == (if first.Some? then [first.value] else []) + old(queue)
    {
      pending := if first.Some? then [first.value] else [];
      ghost var head, all := pending, queue;
      var size := |queue|;
      for n := 0 to size
        invariant |queue| == size - n && queue == all[n..] && pending == head + all[..n]
      {
        pending := pending + [queue[0]];
        queue := queue[1..];
      }
      assert all[..size] == all;
    }

    /** Converts messages up to the first that is a turn of its own; the queue takes what arrives meanwhile. */
    method ConvertPrefix<R>(pending: seq<Msg>, convert: Msg -> Option<R>, arrivals: nat -> seq<Msg>)
      returns (converted: seq<R>, failed: bool)
      requires queue == []
      modifies this
      ensures var k := InjectablePrefix(pending);
              var failure := FirstFailure(pending[..k], convert);
              && failed == (failure < k)
              && queue == Arrivals(arrivals, if failed then failure + 1 else k)
              && |converted| == failure
              && forall i :: 0 <= i < failure ==> convert(pending[i]) == Some(converted[i])
    {
      converted, failed := [], false;
      ghost var k := InjectablePrefix(pending);
      var i := 0;
      while i < |pending| && Injectable(pending[i])
        invariant 0 <= i <= k && |converted| == i && !failed
        invariant forall j :: 0 <= j < i ==> convert(pending[j]) == Some(converted[j])
        invariant queue == Arrivals(arrivals, i)
      {
        queue := queue + arrivals(i);
        var row := convert(pending[i]);
        if row.None? {
          failed := true;
          FailsAt(pending[..k], convert, i);
          return;
        }
        converted := converted + [row.value];
        i := i + 1;
      }
      FailsAt(pending[..k], convert, k);
    }

    /**
     `_drain_pending`: the rows and the queue afterwards make up the snapshot and the arrivals, in order; a failed
     conversion returns nothing and puts everything back.
     */
    method DrainPending<R>(first: Option<Msg>, convert: Msg -> Option<R>, arrivals: nat -> seq<Msg>)
      returns (rows: Option<seq<R>>)
      modifies this
      ensures var snapshot := (if first.Some? then [first.value] else []) + old(queue);
              var k := InjectablePrefix(snapshot);
              var failure := FirstFailure(snapshot[..k], convert);
              && (rows.Some? <==> failure == k)
              && (rows.Some? ==>
                    && |rows.value| == k
                    && queue == snapshot[k..] + Arrivals(arrivals, k)
                    && forall i :: 0 <= i < k ==> convert(snapshot[i]) == Some(rows.value[i]))
              && (rows.None? ==> queue == snapshot + Arrivals(arrivals, failure + 1))
              // Only user input is converted, and nothing behind a message that is not.
              && (forall i :: 0 <= i < k ==> snapshot[i].kind == Input && snapshot[i].turn.None?)
              && (k < |snapshot| ==> snapshot[k].kind != Input || snapshot[k].turn.Some?)
    {
      hide InjectablePrefix, FirstFailure, Arrivals;
      var pending := TakeSnapshot(first);
      var converted, failed := ConvertPrefix(pending, convert, arrivals);
      var consumed := if failed then 0 else |converted|;
      var unconsumed := pending[consumed..];
      if unconsumed != [] {
        var later := queue;
        queue := unconsumed + later;
      }
      rows := if failed then None else Some(converted);
    }
  }

  lemma FailsAt<R>(ms: seq<Msg>, convert: Msg -> Option<R>, i: nat)
    requires i <= |ms| && (forall j :: 0 <= j < i ==> convert(ms[j]).Some?) && (i < |ms| ==> convert(ms[i]).None?)
    ensures FirstFailure(ms, convert) == i
  {
  }
}
