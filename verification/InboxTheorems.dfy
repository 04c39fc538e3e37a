/** Over every run of a session's inbox: messages are conserved, served in order, and by one worker. */
module InboxTheorems {
  import opened Wrappers
  import opened InboxModel
  import opened InboxProofs
  import opened InboxExclusion

  // ----- conservation -----------------------------------------------------------------------

  function Content(w: Worker): multiset<Msg> {
    multiset(w.queue) + multiset(Held(w)) + if w.phase.Dispatching? then multiset{w.phase.msg} else multiset{}
  }

  function Sum(workers: seq<Worker>): multiset<Msg> {
    if workers == [] then multiset{} else Sum(workers[..|workers| - 1]) + Content(workers[|workers| - 1])
  }

  /** Queued, deferred, held by a drain, or being dispatched. */
  function InFlight(s: Inbox): multiset<Msg> {
    Sum(s.workers) + multiset(s.deferred)
  }

  function Gone(logs: Logs): multiset<Msg> {
    logs.finished + logs.injected + logs.cancelled + logs.dropped + logs.stranded
  }

  /** Every admitted message is, as often as it was admitted, in the inbox or in one of the logs. */
  ghost predicate Conserved(s: Inbox) {
    forall m :: s.logs.admitted[m] == InFlight(s)[m] + Gone(s.logs)[m]
  }

  lemma {:induction false} SumUpdate(workers: seq<Worker>, k: nat, w: Worker, m: Msg)
    requires k < |workers|
    ensures Sum(workers[k := w])[m] + Content(workers[k])[m] == Sum(workers)[m] + Content(w)[m]
  {
    hide Content;
    var n := |workers| - 1;
    if k < n {
      SumUpdate(workers[..n], k, w, m);
      assert workers[k := w][..n] == workers[..n][k := w];
    } else {
      assert workers[k := w][..n] == workers[..n];
    }
  }

  lemma SumPush(workers: seq<Worker>, w: Worker)
    ensures Sum(workers + [w]) == Sum(workers) + Content(w)
  {
    assert (workers + [w])[..|workers|] == workers;
  }

  /** What leaves the inbox in a step goes to the logs, what enters it is admitted; counted for one message. */
  ghost predicate Balanced(s: Inbox, s': Inbox, m: Msg) {
    InFlight(s')[m] + Gone(s'.logs)[m] + s.logs.admitted[m] == InFlight(s)[m] + Gone(s.logs)[m] + s'.logs.admitted[m]
  }

  lemma Split(ms: seq<Msg>, k: nat)
    requires k <= |ms|
    ensures multiset(ms) == multiset(ms[..k]) + multiset(ms[k..])
  {
    assert ms == ms[..k] + ms[k..];
  }

  lemma Head(ms: seq<Msg>)
    requires ms != []
    ensures multiset(ms) == multiset{ms[0]} + multiset(ms[1..])
  {
    assert ms == [ms[0]] + ms[1..];
  }

  /** If one worker is replaced and nothing deferred changes, the balance is a matter of that worker. */
  lemma WorkerBalances(m: Msg, s: Inbox, k: nat, w: Worker, s': Inbox)
    requires IsWorker(s, k) && s'.workers == s.workers[k := w]
    ensures InFlight(s')[m] + Content(s.workers[k])[m] + multiset(s.deferred)[m] ==
            InFlight(s)[m] + Content(w)[m] + multiset(s'.deferred)[m]
  {
    hide Sum, Content;
    SumUpdate(s.workers, k, w, m);
  }

  lemma ContentOfWaiting(w: Worker)
    requires !w.phase.Dispatching?
    ensures Content(w) == multiset(w.queue)
  {
  }

  lemma ContentOfDispatch(w: Worker)
    requires w.phase.Dispatching?
    ensures Content(w) == multiset(w.queue) + multiset(Held(w)) + multiset{w.phase.msg}
  {
  }

  lemma Arrives(w: Worker, e: Msg)
    ensures Content(w.(queue := w.queue + [e], arrived := w.arrived + [e])) == Content(w) + multiset{e}
  {
    assert multiset(w.queue + [e]) == multiset(w.queue) + multiset{e};
  }

  lemma EnqueueBalances(m: Msg, s: Inbox, e: Msg)
    ensures Balanced(s, EnqueueStep(s, e), m)
  {
    hide Sum, Content;
    var s' := EnqueueStep(s, e);
    if e.defers && s.registered.Some? {
    } else if s.registered.Some? && IsWorker(s, s.registered.value) {
      var q := s.registered.value;
      WorkerBalances(m, s, q, s'.workers[q], s');
      Arrives(s.workers[q], e);
    } else {
      SumPush(s.workers, Worker([e], Scheduled, [e], [], []));
      ContentOfWaiting(Worker([e], Scheduled, [e], [], []));
    }
  }

  lemma PhaseBalances(m: Msg, s: Inbox, w: nat, phase: Phase)
    requires IsWorker(s, w) && !s.workers[w].phase.Dispatching? && !phase.Dispatching?
    ensures Balanced(s, SetPhase(s, w, phase), m)
  {
    hide Sum, Content;
    WorkerBalances(m, s, w, s.workers[w].(phase := phase), SetPhase(s, w, phase));
    ContentOfWaiting(s.workers[w]);
    ContentOfWaiting(s.workers[w].(phase := phase));
  }

  lemma ContentOfTaken(worker: Worker, e: Msg)
    requires worker.phase == Dispatching(e, None)
    ensures Content(worker) == multiset(worker.queue) + multiset{e}
  {
    var none: seq<Msg> := [];
    assert multiset(none) == multiset{};
  }

  lemma TakeQueuedBalances(m: Msg, s: Inbox, w: nat)
    requires Enabled(s, Take(w)) && s.registered == Some(w) && s.workers[w].queue != []
    ensures Balanced(s, TakeStep(s, w), m)
  {
    hide Sum, Content;
    var s', worker := TakeStep(s, w), s.workers[w];
    WorkerBalances(m, s, w, s'.workers[w], s');
    ContentOfWaiting(worker);
    Head(worker.queue);
    ContentOfTaken(s'.workers[w], worker.queue[0]);
  }

  lemma TakeDeferredBalances(m: Msg, s: Inbox, w: nat)
    requires Enabled(s, Take(w)) && s.registered == Some(w) && s.workers[w].queue == [] && s.deferred != []
    ensures Balanced(s, TakeStep(s, w), m)
  {
    hide Sum, Content;
    var s', worker := TakeStep(s, w), s.workers[w];
    WorkerBalances(m, s, w, s'.workers[w], s');
    ContentOfWaiting(worker);
    Head(s.deferred);
    ContentOfTaken(s'.workers[w], s.deferred[0]);
  }

  lemma TakeNothingBalances(m: Msg, s: Inbox, w: nat)
    requires Enabled(s, Take(w)) && s.registered != Some(w)
    ensures Balanced(s, TakeStep(s, w), m)
  {
    hide Sum, Content;
    WorkerBalances(m, s, w, TakeStep(s, w).workers[w], TakeStep(s, w));
    ContentOfWaiting(s.workers[w]);
    ContentOfWaiting(TakeStep(s, w).workers[w]);
  }

  lemma TakeBalances(m: Msg, s: Inbox, w: nat)
    requires Enabled(s, Take(w))
    ensures Balanced(s, TakeStep(s, w), m)
  {
    if s.registered != Some(w) {
      TakeNothingBalances(m, s, w);
    } else if s.workers[w].queue != [] {
      TakeQueuedBalances(m, s, w);
    } else if s.deferred != [] {
      TakeDeferredBalances(m, s, w);
    } else {
      PhaseBalances(m, s, w, Exited);
    }
  }

  lemma DrainStartBalances(m: Msg, s: Inbox, w: nat)
    requires Enabled(s, DrainStart(w))
    ensures Balanced(s, DrainStartStep(s, w), m)
  {
    hide Sum;
    SumUpdate(s.workers, w, DrainStartStep(s, w).workers[w], m);
  }

  lemma DrainEndBalances(m: Msg, s: Inbox, w: nat, count: nat)
    requires Enabled(s, DrainEnd(w, count))
    ensures Balanced(s, DrainEndStep(s, w, count), m)
  {
    hide Sum, InjectablePrefix;
    SumUpdate(s.workers, w, DrainEndStep(s, w, count).workers[w], m);
    Split(Held(s.workers[w]), count);
  }

  lemma ContinueBalances(m: Msg, s: Inbox, w: nat, id: nat)
    requires IsDispatching(s, w)
    ensures Balanced(s, ContinueStep(s, w, id), m)
  {
    hide Sum, Content;
    var s', worker := ContinueStep(s, w, id), s.workers[w];
    WorkerBalances(m, s, w, s'.workers[w], s');
    Arrives(worker, worker.phase.msg.(id := id, kind := Continuation));
  }

  lemma FinishBalances(m: Msg, s: Inbox, w: nat)
    requires Enabled(s, Finish(w))
    ensures Balanced(s, FinishStep(s, w), m)
  {
    hide Sum;
    SumUpdate(s.workers, w, FinishStep(s, w).workers[w], m);
  }

  lemma CancelPendingBalances(m: Msg, s: Inbox, w: nat)
    requires IsWorker(s, w)
    ensures Balanced(s, CancelPending(s, w), m)
  {
    hide Sum;
    SumUpdate(s.workers, w, CancelPending(s, w).workers[w], m);
  }

  lemma CancelDispatchBalances(m: Msg, s: Inbox, w: nat)
    requires IsDispatching(s, w)
    ensures Balanced(s, CancelDispatchStep(s, w), m)
  {
    hide Sum, Content;
    var worker, after := s.workers[w], CancelDispatchStep(s, w).workers[w];
    WorkerBalances(m, s, w, after, CancelDispatchStep(s, w));
    ContentOfDispatch(worker);
    ContentOfWaiting(after);
    assert multiset(Held(worker) + worker.queue) == multiset(Held(worker)) + multiset(worker.queue);
  }

  lemma CancelEndBalances(m: Msg, s: Inbox, call: nat)
    requires call in s.reclaims
    ensures Balanced(s, CancelEndStep(s, call), m)
  {
    hide Sum, Content;
    var r := s.reclaims[call];
    if r.tasks != {} && r.pending.Some? && s.registered == r.pending && IsWorker(s, r.pending.value) {
      CancelPendingBalances(m, s, r.pending.value);
    }
  }

  lemma InlineEndBalances(m: Msg, s: Inbox)
    requires s.inline.Some?
    ensures Balanced(s, InlineEndStep(s), m)
  {
    hide Sum, StopPopStep;
    StopPopBalances(m, s);
  }

  lemma StopPopBalances(m: Msg, s: Inbox)
    ensures Balanced(s, StopPopStep(s), m)
  {
    hide Sum;
    if s.registered.Some? && IsWorker(s, s.registered.value) {
      SumUpdate(s.workers, s.registered.value, StopPopStep(s).workers[s.registered.value], m);
    }
  }

  lemma StepBalances(s: Inbox, a: Action, m: Msg)
    requires Enabled(s, a)
    ensures Balanced(s, Step(s, a), m)
  {
    match a
    case Enqueue(e) => EnqueueBalances(m, s, e);
    case Submit(e) => EnqueueBalances(m, s.(waiters := s.waiters + Turns([e])), e);
    case Begin(w) => PhaseBalances(m, s, w, Top);
    case Take(w) => TakeBalances(m, s, w);
    case DrainStart(w) => DrainStartBalances(m, s, w);
    case DrainEnd(w, count) => DrainEndBalances(m, s, w, count);
    case Finish(w) => FinishBalances(m, s, w);
    case CancelDispatch(w) => CancelDispatchBalances(m, s, w);
    case CancelScheduled(w) => PhaseBalances(m, s, w, Exited);
    case Continue(w, id) => ContinueBalances(m, s, w, id);
    case CancelEnd(call) => CancelEndBalances(m, s, call);
    case InlineEnd => InlineEndBalances(m, s);
    case _ =>
  }

  // ----- nobody's waiter is forgotten ---------------------------------------------------------

  /** The message a coordinator waits for; a continuation of its turn bears the turn's id, too. */
  predicate IsFor(m: Msg, turn: string) {
    m.turn == Some(turn) && m.kind != Continuation
  }

  ghost predicate Carries(ms: multiset<Msg>, turn: string) {
    exists m :: m in ms && IsFor(m, turn)
  }

  /** The message of every unresolved waiter is still in the inbox, or a stop command discarded it. */
  ghost predicate WaitersOk(s: Inbox) {
    forall t :: t in s.waiters ==> Carries(InFlight(s) + s.logs.dropped, t)
  }

  /**
   A message whose waiter stays unresolved has not ended, only continuations are stranded, and new waiters wait for
   messages admitted now.
   */
  ghost predicate EndsOnly(s: Inbox, s': Inbox, m: Msg) {
    && s.logs.dropped <= s'.logs.dropped && s.logs.admitted <= s'.logs.admitted
    && s.logs.finished <= s'.logs.finished && s.logs.cancelled <= s'.logs.cancelled
    && s.logs.injected <= s'.logs.injected && s.logs.stranded <= s'.logs.stranded
    && (m.turn.Some? && m.turn.value in s'.waiters ==>
          && s'.logs.finished[m] == s.logs.finished[m]
          && s'.logs.cancelled[m] == s.logs.cancelled[m]
          && s'.logs.injected[m] == s.logs.injected[m])
    && (m.kind != Continuation ==> s'.logs.stranded[m] == s.logs.stranded[m])
    && forall t :: t in s'.waiters && t !in s.waiters ==> Carries(s'.logs.admitted - s.logs.admitted, t)
  }

  lemma InTurns(ms: seq<Msg>, m: Msg)
    requires m.turn.Some? && m.turn.value !in Turns(ms)
    ensures multiset(ms)[m] == 0
  {
    assert m in multiset(ms) ==> m in ms;
  }

  lemma CancelPendingEndsOnly(s: Inbox, w: nat, m: Msg)
    requires IsWorker(s, w)
    ensures EndsOnly(s, CancelPending(s, w), m)
  {
    if m.turn.Some? && m.turn.value !in Turns(s.workers[w].queue) && m.turn.value !in Turns(s.deferred) {
      InTurns(s.workers[w].queue, m);
      InTurns(s.deferred, m);
    }
  }

  lemma CancelDispatchEndsOnly(s: Inbox, w: nat, m: Msg)
    requires IsDispatching(s, w)
    ensures EndsOnly(s, CancelDispatchStep(s, w), m)
  {
    var worker := s.workers[w];
    if m.turn.Some? && m.turn.value in CancelDispatchStep(s, w).waiters {
      InTurns([worker.phase.msg], m);
      InTurns(Held(worker) + worker.queue, m);
      InTurns(s.deferred, m);
    }
  }

  lemma FinishEndsOnly(s: Inbox, w: nat, m: Msg)
    requires IsDispatching(s, w)
    ensures EndsOnly(s, FinishStep(s, w), m)
  {
    var e := s.workers[w].phase.msg;
    if m.turn.Some? && m.turn.value in FinishStep(s, w).waiters { InTurns([e], m); }
  }

  lemma DrainEndEndsOnly(s: Inbox, w: nat, count: nat, m: Msg)
    requires Enabled(s, DrainEnd(w, count))
    ensures EndsOnly(s, DrainEndStep(s, w, count), m)
  {
    var taken := Held(s.workers[w])[..count];
    if m in multiset(taken) { assert m in taken && Injectable(m); }
  }

  lemma SubmitEndsOnly(s: Inbox, e: Msg, m: Msg)
    requires Enabled(s, Submit(e))
    ensures EndsOnly(s, Step(s, Submit(e)), m)
  {
    var s' := Step(s, Submit(e));
    SubmitLogs(s, e);
    hide EnqueueStep, Enabled, Step;
    assert e in s'.logs.admitted - s.logs.admitted;
    assert forall t :: t in s'.waiters && t !in s.waiters ==> e.turn == Some(t);
    assert e.kind != Continuation by { SubmitLogs(s, e); }
  }

  lemma SubmitLogs(s: Inbox, e: Msg)
    requires Enabled(s, Submit(e))
    ensures var s' := Step(s, Submit(e));
            && s'.logs == s.logs.(admitted := s.logs.admitted + multiset{e}, postponed := s'.logs.postponed)
            && s'.waiters == s.waiters + Turns([e]) && e.kind != Continuation
  {
  }

  /** A step that leaves the logs alone and adds no waiter. */
  lemma QuietEndsOnly(s: Inbox, s': Inbox, m: Msg)
    requires s'.logs == s.logs && s'.waiters <= s.waiters
    ensures EndsOnly(s, s', m)
  {
  }

  lemma EnqueueEndsOnly(s: Inbox, e: Msg, m: Msg)
    ensures EndsOnly(s, EnqueueStep(s, e), m)
  {
  }

  lemma TakeEndsOnly(s: Inbox, w: nat, m: Msg)
    requires IsWorker(s, w) && Exclusive(s)
    ensures EndsOnly(s, TakeStep(s, w), m)
  {
    QueueAt(s, w);
    hide Exclusive;
    assert m in multiset(s.workers[w].queue) ==> m in s.workers[w].queue;
  }

  lemma ContinueEndsOnly(s: Inbox, w: nat, id: nat, m: Msg)
    requires IsDispatching(s, w)
    ensures EndsOnly(s, ContinueStep(s, w, id), m)
  {
  }

  lemma StopPopEndsOnly(s: Inbox, m: Msg)
    ensures EndsOnly(s, StopPopStep(s), m)
  {
  }

  lemma InlineEndEndsOnly(s: Inbox, m: Msg)
    requires s.inline.Some?
    ensures EndsOnly(s, InlineEndStep(s), m)
  {
    StopPopEndsOnly(s, m);
    hide StopPopStep, Carries;
  }

  lemma CancelEndEndsOnly(s: Inbox, call: nat, m: Msg)
    requires call in s.reclaims
    ensures EndsOnly(s, CancelEndStep(s, call), m)
  {
    hide Turns;
    var r := s.reclaims[call];
    if r.tasks != {} && r.pending.Some? && s.registered == r.pending && IsWorker(s, r.pending.value) {
      CancelPendingEndsOnly(s, r.pending.value, m);
    }
  }

  lemma StepEndsOnly(s: Inbox, a: Action, m: Msg)
    requires Enabled(s, a) && Exclusive(s)
    ensures EndsOnly(s, Step(s, a), m)
  {
    hide Turns, InjectablePrefix, Held, EndsOnly, CancelDispatchStep, FinishStep, EnqueueStep, StopPopStep,
         CancelEndStep, DrainEndStep, TakeStep, ContinueStep, InlineEndStep, Exclusive;
    match a
    case Enqueue(e) => EnqueueEndsOnly(s, e, m);
    case Take(w) => TakeEndsOnly(s, w, m);
    case Submit(e) => SubmitEndsOnly(s, e, m);
    case Finish(w) => FinishEndsOnly(s, w, m);
    case DrainEnd(w, count) => DrainEndEndsOnly(s, w, count, m);
    case CancelDispatch(w) => CancelDispatchEndsOnly(s, w, m);
    case CancelEnd(call) => CancelEndEndsOnly(s, call, m);
    case Continue(w, id) => ContinueEndsOnly(s, w, id, m);
    case InlineEnd => InlineEndEndsOnly(s, m);
    case _ => QuietEndsOnly(s, Step(s, a), m);
  }

  lemma StepKeepsWaiters(s: Inbox, a: Action)
    requires Enabled(s, a) && WaitersOk(s) && Exclusive(s)
    ensures WaitersOk(Step(s, a))
  {
    hide Enabled, Step, InFlight, Exclusive;
    var s' := Step(s, a);
    forall t | t in s'.waiters ensures Carries(InFlight(s') + s'.logs.dropped, t) {
      StepEndsOnly(s, a, Msg(0, Input, None, false));
      var m :| m in (if t in s.waiters then InFlight(s) + s.logs.dropped else s'.logs.admitted - s.logs.admitted)
               && IsFor(m, t);
      StepBalances(s, a, m);
      StepEndsOnly(s, a, m);
      assert m in InFlight(s') + s'.logs.dropped;
    }
  }

  // ----- messages of one queue are served in order ------------------------------------------------

  /** What arrived is what has left, then what a drain holds, then what waits; what was served left first. */
  ghost predicate InOrder(w: Worker) {
    w.arrived == w.left + Held(w) + w.queue && w.served <= w.left
  }

  /** Nothing has left the queue that takes new messages but what was served. */
  ghost predicate AllInOrder(registered: Option<nat>, workers: seq<Worker>) {
    && (forall w :: 0 <= w < |workers| ==> InOrder(workers[w]))
    && (registered.Some? && registered.value < |workers| ==>
          workers[registered.value].served == workers[registered.value].left)
  }

  lemma WorkerKeepsOrder(registered: Option<nat>, workers: seq<Worker>, k: nat, w: Worker)
    requires k < |workers| && AllInOrder(registered, workers) && InOrder(w)
    requires w.served == w.left || registered != Some(k)
    ensures AllInOrder(registered, workers[k := w])
  {
    hide InOrder;
  }

  lemma UnregisteringKeepsOrder(registered: Option<nat>, workers: seq<Worker>)
    requires AllInOrder(registered, workers)
    ensures AllInOrder(None, workers)
  {
  }

  lemma RegisteredIsWorker(s: Inbox)
    requires Owned(s)
    ensures s.registered.Some? ==> IsWorker(s, s.registered.value)
  {
  }

  lemma EnqueueKeepsOrder(s: Inbox, e: Msg)
    requires AllInOrder(s.registered, s.workers) && (s.registered.Some? ==> IsWorker(s, s.registered.value))
    ensures AllInOrder(EnqueueStep(s, e).registered, EnqueueStep(s, e).workers)
  {
    if s.registered.Some? {
      var w := s.workers[s.registered.value];
      ArrivingKeepsOrder(w, e);
    } else {
      var w := Worker([e], Scheduled, [e], [], []);
      assert InOrder(w) by { assert [e] == [] + [] + [e]; }
    }
    hide InOrder;
  }

  lemma ArrivingKeepsOrder(w: Worker, e: Msg)
    requires InOrder(w)
    ensures InOrder(w.(queue := w.queue + [e], arrived := w.arrived + [e]))
  {
  }

  lemma TakingKeepsOrder(w: Worker, phase: Phase)
    requires InOrder(w) && Held(w) == [] && w.queue != [] && w.served == w.left
    requires phase == Dispatching(w.queue[0], None)
    ensures InOrder(w.(queue := w.queue[1..], phase := phase, served := w.served + [w.queue[0]],
                       left := w.left + [w.queue[0]]))
  {
    assert w.queue == [w.queue[0]] + w.queue[1..];
  }

  lemma EmptyingKeepsOrder(w: Worker)
    requires InOrder(w) && Held(w) == []
    ensures InOrder(Emptied(w)) && InOrder(Emptied(w).(phase := Exited))
  {
  }

  lemma TakeKeepsOrder(s: Inbox, w: nat)
    requires Enabled(s, Take(w)) && AllInOrder(s.registered, s.workers)
    ensures InOrder(TakeStep(s, w).workers[w])
  {
    var worker := s.workers[w];
    assert InOrder(worker) && Held(worker) == [];
    if s.registered != Some(w) {
      EmptyingKeepsOrder(worker);
    } else if worker.queue != [] {
      TakingKeepsOrder(worker, Dispatching(worker.queue[0], None));
    }
  }

  lemma TakeKeepsAll(s: Inbox, w: nat)
    requires Enabled(s, Take(w)) && AllInOrder(s.registered, s.workers)
    ensures AllInOrder(TakeStep(s, w).registered, TakeStep(s, w).workers)
  {
    TakeKeepsOrder(s, w);
    ServedIsLeft(s, w);
    hide InOrder, AllInOrder;
    WorkerKeepsOrder(s.registered, s.workers, w, TakeStep(s, w).workers[w]);
    UnregisteringKeepsOrder(s.registered, TakeStep(s, w).workers);
  }

  lemma ServedIsLeft(s: Inbox, w: nat)
    requires AllInOrder(s.registered, s.workers) && IsWorker(s, w)
    ensures InOrder(s.workers[w]) && (s.registered == Some(w) ==> s.workers[w].served == s.workers[w].left)
  {
  }

  lemma DrainStartKeepsOrder(s: Inbox, w: nat)
    requires Enabled(s, DrainStart(w)) && AllInOrder(s.registered, s.workers)
    ensures AllInOrder(s.registered, DrainStartStep(s, w).workers)
  {
    ServedIsLeft(s, w);
    assert InOrder(DrainStartStep(s, w).workers[w]);
    hide InOrder, AllInOrder;
    WorkerKeepsOrder(s.registered, s.workers, w, DrainStartStep(s, w).workers[w]);
  }

  lemma DrainEndKeepsOrder(s: Inbox, w: nat, count: nat)
    requires Enabled(s, DrainEnd(w, count)) && AllInOrder(s.registered, s.workers) && Exclusive(s)
    ensures AllInOrder(s.registered, DrainEndStep(s, w, count).workers)
  {
    QueueAt(s, w);
    hide Exclusive, InjectablePrefix;
    ServedIsLeft(s, w);
    InjectingKeepsOrder(s.workers[w], count);
    hide InOrder, AllInOrder;
    WorkerKeepsOrder(s.registered, s.workers, w, DrainEndStep(s, w, count).workers[w]);
  }

  lemma InjectingKeepsOrder(w: Worker, count: nat)
    requires InOrder(w) && w.phase.Dispatching? && count <= |Held(w)| && w.served == w.left
    ensures InOrder(w.(queue := Held(w)[count..] + w.queue, phase := w.phase.(held := None),
                       served := w.served + Held(w)[..count], left := w.left + Held(w)[..count]))
  {
    assert Held(w) == Held(w)[..count] + Held(w)[count..];
  }

  lemma ContinueKeepsOrder(s: Inbox, w: nat, id: nat)
    requires IsDispatching(s, w) && AllInOrder(s.registered, s.workers)
    ensures AllInOrder(s.registered, ContinueStep(s, w, id).workers)
  {
    ServedIsLeft(s, w);
    ArrivingKeepsOrder(s.workers[w], s.workers[w].phase.msg.(id := id, kind := Continuation));
    hide InOrder, AllInOrder;
    WorkerKeepsOrder(s.registered, s.workers, w, ContinueStep(s, w, id).workers[w]);
  }

  lemma CancelDispatchKeepsOrder(s: Inbox, w: nat)
    requires IsDispatching(s, w) && AllInOrder(s.registered, s.workers)
    ensures AllInOrder(CancelDispatchStep(s, w).registered, CancelDispatchStep(s, w).workers)
  {
    ServedIsLeft(s, w);
    assert InOrder(CancelDispatchStep(s, w).workers[w]);
    hide InOrder;
  }

  /** A phase without a drain, after a phase without one, says nothing about the order. */
  lemma PhaseKeepsOrder(s: Inbox, w: nat, phase: Phase)
    requires IsWorker(s, w) && AllInOrder(s.registered, s.workers)
    requires Held(s.workers[w]) == [] && Held(s.workers[w].(phase := phase)) == []
    ensures AllInOrder(s.registered, SetPhase(s, w, phase).workers)
  {
    ServedIsLeft(s, w);
    WorkerKeepsOrder(s.registered, s.workers, w, s.workers[w].(phase := phase));
  }

  lemma CancelEndKeepsOrder(s: Inbox, call: nat)
    requires Owned(s) && Enabled(s, CancelEnd(call)) && AllInOrder(s.registered, s.workers)
    ensures AllInOrder(CancelEndStep(s, call).registered, CancelEndStep(s, call).workers)
  {
    var r := s.reclaims[call];
    if r.tasks != {} && r.pending.Some? && s.registered == r.pending && IsWorker(s, r.pending.value) {
      var q := r.pending.value;
      assert q in r.tasks;
      assert Held(s.workers[q]) == [];
      hide Owned;
      ServedIsLeft(s, q);
      EmptyingKeepsOrder(s.workers[q]);
      hide InOrder;
    }
  }

  lemma StopPopKeepsOrder(s: Inbox)
    requires Owned(s) && Exclusive(s) && Enabled(s, InlineEnd) && AllInOrder(s.registered, s.workers)
    ensures AllInOrder(StopPopStep(s).registered, StopPopStep(s).workers)
  {
    hide Owned, Exclusive;
    if s.registered.Some? && IsWorker(s, s.registered.value) {
      var q := s.registered.value;
      StopMeetsNoDrain(s);
      ServedIsLeft(s, q);
      EmptyingKeepsOrder(s.workers[q]);
      hide InOrder;
    }
  }

  lemma PhaseStepKeepsOrder(s: Inbox, a: Action)
    requires Enabled(s, a) && (a.Begin? || a.Finish? || a.CancelScheduled?) && AllInOrder(s.registered, s.workers)
    ensures AllInOrder(Step(s, a).registered, Step(s, a).workers)
  {
    hide InOrder, AllInOrder, Turns, Calling, Cancelling;
    PhaseKeepsOrder(s, a.w, if a.CancelScheduled? then Exited else Top);
  }

  lemma StepKeepsOrder(s: Inbox, a: Action)
    requires Owned(s) && Exclusive(s) && Enabled(s, a) && AllInOrder(s.registered, s.workers)
    ensures AllInOrder(Step(s, a).registered, Step(s, a).workers)
  {
    RegisteredIsWorker(s);
    hide InOrder, InjectablePrefix, Owned, Exclusive, AllInOrder, Turns, EnqueueStep, CancelDispatchStep, CancelEndStep,
         StopPopStep, TakeStep, DrainStartStep, DrainEndStep, ContinueStep, FinishStep, SetPhase, Cancelling, Calling,
         Held;
    match a
    case Enqueue(e) => EnqueueKeepsOrder(s, e);
    case Submit(e) => EnqueueKeepsOrder(s.(waiters := s.waiters + Turns([e])), e);
    case Begin(w) => PhaseStepKeepsOrder(s, a);
    case Take(w) => TakeKeepsAll(s, w);
    case DrainStart(w) => DrainStartKeepsOrder(s, w);
    case DrainEnd(w, count) => DrainEndKeepsOrder(s, w, count);
    case Continue(w, id) => ContinueKeepsOrder(s, w, id);
    case Finish(w) => PhaseStepKeepsOrder(s, a);
    case CancelDispatch(w) => CancelDispatchKeepsOrder(s, w);
    case CancelScheduled(w) => PhaseStepKeepsOrder(s, a);
    case CancelEnd(call) => CancelEndKeepsOrder(s, call);
    case InlineEnd => StopPopKeepsOrder(s);
    case _ =>
  }

  // ----- every run ---------------------------------------------------------------------------------

  ghost predicate InboxOk(s: Inbox) {
    Owned(s) && Exclusive(s) && Conserved(s) && WaitersOk(s) && AllInOrder(s.registered, s.workers)
  }

  lemma StepKeepsInbox(s: Inbox, a: Action)
    requires InboxOk(s) && Enabled(s, a)
    ensures InboxOk(Step(s, a))
  {
    hide Enabled, Step, Owned, Exclusive, WaitersOk, AllInOrder, InFlight, Gone;
    StepKeepsOwned(s, a);
    StepKeepsExclusive(s, a);
    StepKeepsWaiters(s, a);
    StepKeepsOrder(s, a);
    forall m ensures Step(s, a).logs.admitted[m] == InFlight(Step(s, a))[m] + Gone(Step(s, a).logs)[m] {
      StepBalances(s, a, m);
    }
  }

  lemma {:induction false} RunKeepsInbox(s: Inbox, actions: seq<Action>)
    requires InboxOk(s) && Run(s, actions).Some?
    ensures InboxOk(Run(s, actions).value)
  {
    hide InboxOk, Enabled, Step;
    if actions != [] {
      var k := |actions| - 1;
      RunKeepsInbox(s, actions[..k]);
      StepKeepsInbox(Run(s, actions[..k]).value, actions[k]);
    }
  }

  lemma IdleIsOk()
    ensures InboxOk(IDLE)
  {
  }

  ghost predicate Reachable(s: Inbox) {
    exists actions :: Run(IDLE, actions) == Some(s)
  }

  lemma ReachableIsOk(s: Inbox)
    requires Reachable(s)
    ensures InboxOk(s)
  {
    var actions :| Run(IDLE, actions) == Some(s);
    IdleIsOk();
    RunKeepsInbox(IDLE, actions);
  }

  /**
   Every admitted message is in exactly one place: in flight, finished, injected, cancelled, discarded by a stop
   command, or stranded in the queue of a worker that ended.
   */
  lemma MessagesAreConserved(s: Inbox, m: Msg)
    requires Reachable(s)
    ensures s.logs.admitted[m] ==
            InFlight(s)[m] + s.logs.finished[m] + s.logs.injected[m] + s.logs.cancelled[m]
            + s.logs.dropped[m] + s.logs.stranded[m]
  {
    ReachableIsOk(s);
  }

  // ----- where a message in flight is ------------------------------------------------------------------

  /** Somebody will take it: it is deferred, in the session's queue, or with a live worker. */
  ghost predicate IsHeld(s: Inbox, m: Msg) {
    || m in s.deferred
    || (s.registered.Some? && IsWorker(s, s.registered.value) && m in s.workers[s.registered.value].queue)
    || exists w: nat :: Live(s.workers, w) && m in Content(s.workers[w])
  }

  lemma {:induction false} SumIsContents(workers: seq<Worker>, m: Msg)
    requires m in Sum(workers)
    ensures exists w :: 0 <= w < |workers| && m in Content(workers[w])
  {
    hide Content;
    var n := |workers| - 1;
    if m !in Content(workers[n]) {
      SumIsContents(workers[..n], m);
      var w :| 0 <= w < n && m in Content(workers[..n][w]);
      assert workers[w] == workers[..n][w];
    }
  }

  lemma InFlightIsHeld(s: Inbox, m: Msg)
    requires Owned(s) && m in InFlight(s)
    ensures IsHeld(s, m)
  {
    if m !in s.deferred {
      hide Owned, Content;
      assert m in Sum(s.workers);
      SumIsContents(s.workers, m);
      var w :| 0 <= w < |s.workers| && m in Content(s.workers[w]);
      if !Live(s.workers, w) { ExitedHoldsRegistered(s, w, m); }
    }
  }

  /** What a worker that ended still has waits in the session's queue. */
  lemma ExitedHoldsRegistered(s: Inbox, w: nat, m: Msg)
    requires Owned(s) && IsWorker(s, w) && !Live(s.workers, w) && m in Content(s.workers[w])
    ensures s.registered == Some(w) && m in s.workers[w].queue
  {
    assert m in s.workers[w].queue;
  }

  /**
   The message of an unresolved waiter is deferred, in the session's queue or with a live worker; or a stop command
   discarded it. It is never stranded.
   */
  lemma WaitersAreInFlight(s: Inbox, turn: string)
    requires Reachable(s) && turn in s.waiters
    ensures exists m :: IsFor(m, turn) && (IsHeld(s, m) || m in s.logs.dropped)
  {
    hide Owned, Exclusive, IsHeld, InFlight, Conserved, AllInOrder;
    ReachableIsOk(s);
    var m :| m in InFlight(s) + s.logs.dropped && IsFor(m, turn);
    if m in InFlight(s) { InFlightIsHeld(s, m); }
  }

  /**
   Messages are stranded when, and only when, a worker without a claim to its queue ends with messages in it; and these
   are continuations of the turns it ran.
   */
  lemma StrandsIff(s: Inbox, a: Action)
    requires Reachable(s) && Enabled(s, a)
    ensures Step(s, a).logs.stranded != s.logs.stranded <==>
              a.Take? && s.registered != Some(a.w) && s.workers[a.w].queue != []
    ensures forall m: Msg :: m.kind != Continuation ==> Step(s, a).logs.stranded[m] == s.logs.stranded[m]
  {
    ReachableIsOk(s);
    forall m: Msg | m.kind != Continuation ensures Step(s, a).logs.stranded[m] == s.logs.stranded[m] {
      StepEndsOnly(s, a, m);
    }
    hide InjectablePrefix, Turns, InboxOk;
    StrandedOnTake(s, a);
  }

  lemma StrandedOnTake(s: Inbox, a: Action)
    requires Enabled(s, a)
    ensures Step(s, a).logs.stranded ==
              if a.Take? && s.registered != Some(a.w) then s.logs.stranded + multiset(s.workers[a.w].queue)
              else s.logs.stranded
    ensures a.Take? && s.workers[a.w].queue != [] ==> |multiset(s.workers[a.w].queue)| > 0
  {
    hide InjectablePrefix, Turns;
    if a.Take? && s.workers[a.w].queue != [] {
      assert s.workers[a.w].queue[0] in multiset(s.workers[a.w].queue);
    }
  }

  /** Unless a worker lost its queue while it lived, at most one worker of the session lives. */
  lemma AtMostOneWorker(s: Inbox, v: nat, w: nat)
    requires Reachable(s) && Live(s.workers, v) && Live(s.workers, w) && v !in s.orphaned && w !in s.orphaned
    ensures v == w && s.registered == Some(v)
  {
    ReachableIsOk(s);
  }

  /** A worker or a cancel call will take the registered queue's messages. */
  ghost predicate IsServed(s: Inbox, w: nat) {
    Live(s.workers, w) || exists c :: c in s.reclaims && Takes(s.reclaims[c], w)
  }

  /**
   A waiting message waits in the session's queue, which has its worker or a cancel call that will take it; or it is a
   continuation, and a worker that lost its queue still has it and strands it when it ends.
   */
  lemma WaitingMessagesAreServed(s: Inbox, w: nat)
    requires Reachable(s) && IsWorker(s, w) && s.workers[w].queue != []
    ensures if s.registered == Some(w) then IsServed(s, w)
            else w in s.orphaned && Live(s.workers, w) && OnlyContinuations(s.workers[w].queue)
  {
    ReachableIsOk(s);
  }

  /** Deferred turns have a worker or a cancel call to end them, unless a stop command was the last to touch a queue. */
  lemma DeferredMessagesAreServed(s: Inbox)
    requires Reachable(s) && s.deferred != []
    ensures (s.registered.Some? && IsServed(s, s.registered.value)) || (s.registered.None? && s.popped)
  {
    ReachableIsOk(s);
  }

  /** The end of a stop command that finds a queue. */
  predicate Pops(s: Inbox, a: Action) {
    a.InlineEnd? && s.inline.Some? && s.inline.value.stop && s.registered.Some?
  }

  /** Only a stop command lets deferred turns wait without a queue, and the next message ends that. */
  lemma PoppedUntilNextMessage(s: Inbox, a: Action)
    requires Reachable(s) && Enabled(s, a)
    ensures !s.popped && Step(s, a).popped ==> Pops(s, a)
    ensures (a.Enqueue? || a.Submit?) && s.registered.None? ==> !Step(s, a).popped && Step(s, a).registered.Some?
  {
    hide Owned, Exclusive, Conserved, WaitersOk, AllInOrder, InjectablePrefix, Turns, TakeStep, DrainStartStep,
         DrainEndStep, FinishStep, CancelDispatchStep, CancelEndStep, ContinueStep;
    if !a.Enqueue? && !a.Submit? && !a.InlineEnd? { QuietlyPopped(s, a); }
  }

  lemma QuietlyPopped(s: Inbox, a: Action)
    requires Enabled(s, a) && !a.Enqueue? && !a.Submit? && !a.InlineEnd?
    ensures Step(s, a).popped == s.popped
  {
    hide InjectablePrefix, Turns;
  }

  /** A deferred turn is dispatched only by the session's worker, and only when no accepted message waits. */
  lemma DeferredFollowInput(s: Inbox, w: nat)
    requires Reachable(s) && Enabled(s, Take(w)) && Step(s, Take(w)).deferred != s.deferred
    ensures Step(s, Take(w)).deferred == s.deferred[1..]
    ensures Step(s, Take(w)).logs.resumed == s.logs.resumed + [s.deferred[0]]
    ensures s.registered == Some(w) && forall v: nat :: IsWorker(s, v) && v !in s.orphaned ==> s.workers[v].queue == []
    ensures Step(s, Take(w)).workers[w].phase == Dispatching(s.deferred[0], None)
  {
    ReachableIsOk(s);
  }

  /** A cancel call that ends takes a queue only from a worker it cancelled, or from the one that made the call. */
  lemma OnlyOwnQueuesAreReclaimed(s: Inbox, call: nat)
    requires Reachable(s) && Enabled(s, CancelEnd(call)) && Step(s, CancelEnd(call)).registered != s.registered
    ensures s.registered.Some? && s.registered.value in s.reclaims[call].tasks
    ensures !Live(s.workers, s.registered.value) || s.reclaims[call].caller == FromWorker(s.registered.value)
  {
    ReachableIsOk(s);
  }

  // ----- how a live worker loses its queue --------------------------------------------------------------

  /** The cancel call was made by the worker that serves the session's queue, and saw that queue and some tasks. */
  predicate EndsOwnQueue(s: Inbox, call: nat) {
    && call in s.reclaims && s.registered.Some?
    && var r := s.reclaims[call];
       r.caller == FromWorker(s.registered.value) && r.pending == s.registered && r.tasks != {}
  }

  /** A live worker loses its queue exactly when a stop command pops it, or when its own cancel call ends. */
  lemma OrphansAreMadeTwoWays(s: Inbox, a: Action)
    requires Reachable(s) && Enabled(s, a)
    ensures Step(s, a).orphaned != s.orphaned <==>
              || (Pops(s, a) && Live(s.workers, s.registered.value))
              || (a.CancelEnd? && EndsOwnQueue(s, a.call))
  {
    hide Owned, Exclusive, Conserved, WaitersOk, AllInOrder, InjectablePrefix, Turns, CancelEndStep;
    ReachableIsOk(s);
    RegisteredIsWorker(s);
    RegisteredIsNotOrphaned(s);
    hide EnqueueStep, TakeStep, DrainStartStep, DrainEndStep, ContinueStep, FinishStep, CancelDispatchStep, Enabled;
    if a.CancelEnd? { CancelEndOrphans(s, a.call); } else if !a.InlineEnd? { OthersOrphanNothing(s, a); }
  }

  lemma OthersOrphanNothing(s: Inbox, a: Action)
    requires Enabled(s, a) && !a.InlineEnd? && !a.CancelEnd?
    ensures Step(s, a).orphaned == s.orphaned
  {
    hide InjectablePrefix, Turns;
  }

  lemma RegisteredIsNotOrphaned(s: Inbox)
    requires Owned(s)
    ensures s.registered.Some? ==> s.registered.value !in s.orphaned
  {
  }

  lemma CancelEndOrphans(s: Inbox, call: nat)
    requires Owned(s) && Enabled(s, CancelEnd(call))
    ensures CancelEndStep(s, call).orphaned != s.orphaned <==> EndsOwnQueue(s, call)
  {
  }

  /** Neither a stop command nor a cancel call from inside a worker. */
  predicate Plain(a: Action) {
    !(a.InlineBegin? && a.stop) && !(a.CancelBegin? && a.caller.FromWorker?)
  }

  ghost predicate Undisturbed(s: Inbox) {
    && s.orphaned == {} && !s.popped && s.logs.dropped == multiset{} && s.logs.stranded == multiset{}
    && (s.inline.Some? ==> !s.inline.value.stop)
    && forall c :: c in s.reclaims ==> !s.reclaims[c].caller.FromWorker?
  }

  lemma EnqueueLeavesUndisturbed(s: Inbox, m: Msg, waiters: set<string>)
    requires Undisturbed(s)
    ensures Undisturbed(EnqueueStep(s.(waiters := waiters), m)) && s.(waiters := s.waiters) == s
  {
  }

  lemma StepLeavesUndisturbed(s: Inbox, a: Action)
    requires Owned(s) && Undisturbed(s) && Enabled(s, a) && Plain(a)
    ensures Undisturbed(Step(s, a))
  {
    hide InjectablePrefix, Turns, EnqueueStep, Owned, StopPopStep;
    if a.Enqueue? || a.Submit? {
      EnqueueLeavesUndisturbed(s, a.msg, s.waiters);
      EnqueueLeavesUndisturbed(s, a.msg, s.waiters + Turns([a.msg]));
    } else if a.CancelEnd? {
      CancelEndOrphans(s, a.call);
    } else if a.Take? {
      TakeLeavesUndisturbed(s, a.w);
    }
  }

  lemma TakeLeavesUndisturbed(s: Inbox, w: nat)
    requires Owned(s) && Undisturbed(s) && Enabled(s, Take(w))
    ensures Undisturbed(TakeStep(s, w))
  {
    assert s.registered == Some(w);
  }

  lemma {:induction false} PlainRunIsUndisturbed(actions: seq<Action>)
    requires Run(IDLE, actions).Some? && forall a :: a in actions ==> Plain(a)
    ensures Undisturbed(Run(IDLE, actions).value) && Owned(Run(IDLE, actions).value)
  {
    hide Undisturbed, Owned, Enabled, Step, Plain;
    if actions == [] {
      NothingDisturbsIdle();
    } else {
      var k := |actions| - 1;
      PlainRunIsUndisturbed(actions[..k]);
      StepLeavesUndisturbed(Run(IDLE, actions[..k]).value, actions[k]);
      StepKeepsOwned(Run(IDLE, actions[..k]).value, actions[k]);
    }
  }

  lemma NothingDisturbsIdle()
    ensures Undisturbed(IDLE) && Owned(IDLE)
  {
  }

  /**
   Over plain runs one worker at most lives, and it serves the session's queue; messages wait only there or deferred
   while there is such a queue; and nothing is lost.
   */
  lemma PlainRunsAreUndisturbed(actions: seq<Action>)
    requires Run(IDLE, actions).Some? && forall a :: a in actions ==> Plain(a)
    ensures var s := Run(IDLE, actions).value;
            && (forall w: nat :: Live(s.workers, w) ==> s.registered == Some(w))
            && (forall w: nat :: IsWorker(s, w) && s.workers[w].queue != [] ==> s.registered == Some(w))
            && (s.deferred != [] ==> s.registered.Some?)
            && (s.registered.Some? ==> IsServed(s, s.registered.value))
            && s.logs.dropped == multiset{} && s.logs.stranded == multiset{}
  {
    PlainRunIsUndisturbed(actions);
  }

  /** Over plain runs a waiter is unresolved only while its message is deferred, queued or with the session's worker. */
  lemma PlainWaitersAreServed(actions: seq<Action>, turn: string)
    requires Run(IDLE, actions).Some? && forall a :: a in actions ==> Plain(a)
    requires turn in Run(IDLE, actions).value.waiters
    ensures var s := Run(IDLE, actions).value;
            && s.registered.Some? && IsServed(s, s.registered.value) && IsWorker(s, s.registered.value)
            && exists m :: IsFor(m, turn) && (m in s.deferred || m in Content(s.workers[s.registered.value]))
  {
    hide Content, IsServed, Run, Plain;
    var s := Run(IDLE, actions).value;
    PlainRunsAreUndisturbed(actions);
    assert Reachable(s);
    ReachableIsOk(s);
    RegisteredIsWorker(s);
    WaitersAreInFlight(s, turn);
    var m :| IsFor(m, turn) && (IsHeld(s, m) || m in s.logs.dropped);
    assert IsHeld(s, m);
    if s.registered.Some? && m in s.workers[s.registered.value].queue {
      QueueIsContent(s.workers[s.registered.value], m);
    }
  }

  lemma QueueIsContent(w: Worker, m: Msg)
    requires m in w.queue
    ensures m in Content(w)
  {
  }

  /**
   The messages of a queue leave it in the order in which they arrived. Those that are served leave first; what is
   cancelled, discarded or stranded comes behind them, and only from a queue that takes no more messages.
   */
  lemma QueueIsFifo(s: Inbox, w: nat)
    requires Reachable(s) && IsWorker(s, w)
    ensures s.workers[w].arrived == s.workers[w].left + Held(s.workers[w]) + s.workers[w].queue
    ensures s.workers[w].served <= s.workers[w].left
    ensures s.registered == Some(w) ==> s.workers[w].served == s.workers[w].left
    ensures s.workers[w].phase == Exited && s.registered != Some(w) ==> s.workers[w].queue == []
  {
    ReachableIsOk(s);
    assert InOrder(s.workers[w]);
  }

  // ----- the order of the deferred turns ---------------------------------------------------------------

  /** Those that left the deferred list, then those still in it, are all that were ever deferred, in this order. */
  predicate DeferredInOrder(s: Inbox) {
    s.logs.postponed == s.logs.resumed + s.deferred
  }

  lemma AdmittingDefers(s: Inbox, m: Msg)
    requires DeferredInOrder(s)
    ensures DeferredInOrder(EnqueueStep(s, m))
  {
  }

  lemma TakingResumes(s: Inbox, w: nat)
    requires IsWorker(s, w) && DeferredInOrder(s)
    ensures DeferredInOrder(TakeStep(s, w))
  {
    if s.deferred != [] { assert s.deferred == [s.deferred[0]] + s.deferred[1..]; }
  }

  lemma CancelEndResumes(s: Inbox, call: nat)
    requires call in s.reclaims && DeferredInOrder(s)
    ensures DeferredInOrder(CancelEndStep(s, call))
  {
    hide Turns, Live, Emptied;
  }

  lemma CancelDispatchResumes(s: Inbox, w: nat)
    requires IsDispatching(s, w) && DeferredInOrder(s)
    ensures DeferredInOrder(CancelDispatchStep(s, w))
  {
    hide Turns, Held, Emptied, Unlocked;
  }

  lemma StepKeepsDeferredInOrder(s: Inbox, a: Action)
    requires Enabled(s, a) && DeferredInOrder(s)
    ensures DeferredInOrder(Step(s, a))
  {
    hide Turns, InjectablePrefix, Held, Live, Unlocked, Emptied, Cancelling, Calling, EnqueueStep, TakeStep,
         CancelEndStep, CancelDispatchStep;
    match a
    case Enqueue(m) => AdmittingDefers(s, m);
    case Submit(m) => AdmittingDefers(s.(waiters := s.waiters + Turns([m])), m);
    case Take(w) => TakingResumes(s, w);
    case CancelEnd(call) => CancelEndResumes(s, call);
    case CancelDispatch(w) => CancelDispatchResumes(s, w);
    case _ =>
  }

  lemma {:induction false} RunKeepsDeferredInOrder(actions: seq<Action>)
    requires Run(IDLE, actions).Some?
    ensures DeferredInOrder(Run(IDLE, actions).value)
  {
    hide Enabled, Step;
    if actions != [] {
      var k := |actions| - 1;
      RunKeepsDeferredInOrder(actions[..k]);
      StepKeepsDeferredInOrder(Run(IDLE, actions[..k]).value, actions[k]);
    }
  }

  /** The one deferred last is the last of them. */
  lemma DeferredGoesLast(s: Inbox, m: Msg)
    requires Enabled(s, Enqueue(m)) && m.defers && s.registered.Some?
    ensures var after := Step(s, Enqueue(m));
            after.deferred == s.deferred + [m] && after.logs.postponed == s.logs.postponed + [m]
  {
  }

  /** Deferred turns leave the list in the order in which they were deferred. */
  lemma DeferredIsFifo(s: Inbox)
    requires Reachable(s)
    ensures s.logs.postponed == s.logs.resumed + s.deferred
  {
    var actions :| Run(IDLE, actions) == Some(s);
    hide Run;
    RunKeepsDeferredInOrder(actions);
  }

  // ----- when a waiter is resolved -----------------------------------------------------------------------

  /** A message of the turn is finished, or completed with an error, in the step. */
  ghost predicate EndsTurn(s: Inbox, s': Inbox, turn: string) {
    exists m: Msg :: m.turn == Some(turn) &&
      (s'.logs.finished[m] > s.logs.finished[m] || s'.logs.cancelled[m] > s.logs.cancelled[m])
  }

  lemma EndedTurns(s: Inbox, s': Inbox, ms: seq<Msg>, turn: string)
    requires s.logs.cancelled + multiset(ms) <= s'.logs.cancelled && turn in Turns(ms)
    ensures EndsTurn(s, s', turn)
  {
    var m :| m in ms && m.turn == Some(turn);
    assert multiset(ms)[m] > 0;
  }

  lemma CancelPendingEnds(s: Inbox, w: nat, turn: string)
    requires IsWorker(s, w) && turn in s.waiters && turn !in CancelPending(s, w).waiters
    ensures EndsTurn(s, CancelPending(s, w), turn)
  {
    var s' := CancelPending(s, w);
    if turn in Turns(s.deferred) { EndedTurns(s, s', s.deferred, turn); } else {
      EndedTurns(s, s', s.workers[w].queue, turn);
    }
  }

  lemma CancelDispatchEnds(s: Inbox, w: nat, turn: string)
    requires IsDispatching(s, w) && turn in s.waiters && turn !in CancelDispatchStep(s, w).waiters
    ensures EndsTurn(s, CancelDispatchStep(s, w), turn)
  {
    var (m, after, s') := (s.workers[w].phase.msg, CancelTurnStep(s, w), CancelDispatchStep(s, w));
    assert after.logs == s.logs.(cancelled := s.logs.cancelled + multiset{m});
    assert after.waiters == s.waiters - Turns([m]);
    hide CancelTurnStep, Turns;
    if turn in Turns([m]) {
      assert multiset([m]) == multiset{m};
      assert s'.logs.cancelled >= after.logs.cancelled by { hide EndsTurn; }
      EndedTurns(s, s', [m], turn);
    } else {
      CancelPendingEnds(after, w, turn);
      var e: Msg :| e.turn == Some(turn) && (CancelPending(after, w).logs.cancelled[e] > after.logs.cancelled[e]
                      || CancelPending(after, w).logs.finished[e] > after.logs.finished[e]);
      assert s'.logs.cancelled[e] > s.logs.cancelled[e];
    }
  }

  lemma CancelEndEnds(s: Inbox, call: nat, turn: string)
    requires call in s.reclaims && turn in s.waiters && turn !in CancelEndStep(s, call).waiters
    ensures EndsTurn(s, CancelEndStep(s, call), turn)
  {
    hide CancelPending;
    var q := s.reclaims[call].pending.value;
    var s' := s.(reclaims := s.reclaims - {call});
    CancelPendingEnds(s', q, turn);
  }

  lemma FinishEnds(s: Inbox, w: nat, turn: string)
    requires IsDispatching(s, w) && turn in s.waiters && turn !in FinishStep(s, w).waiters
    ensures EndsTurn(s, FinishStep(s, w), turn)
  {
    var m := s.workers[w].phase.msg;
    assert m.turn == Some(turn) && FinishStep(s, w).logs.finished[m] > s.logs.finished[m];
  }

  /** A waiter is resolved exactly when it gives up, or when a message of its turn is finished or cancelled. */
  lemma WaiterEndsIff(s: Inbox, a: Action, turn: string)
    requires Reachable(s) && Enabled(s, a) && turn in s.waiters
    ensures turn !in Step(s, a).waiters <==> a == Abandon(turn) || EndsTurn(s, Step(s, a), turn)
  {
    ReachableIsOk(s);
    hide Owned, Exclusive, Conserved, WaitersOk, AllInOrder;
    AbandonEnds(s, a, turn);
    if turn !in Step(s, a).waiters {
      hide EndsTurn;
      TurnEnds(s, a, turn);
    } else {
      hide Step, Enabled;
      forall m: Msg | m.turn == Some(turn)
        ensures Step(s, a).logs.finished[m] == s.logs.finished[m]
        ensures Step(s, a).logs.cancelled[m] == s.logs.cancelled[m]
      {
        StepEndsOnly(s, a, m);
      }
    }
  }

  lemma AbandonEnds(s: Inbox, a: Action, turn: string)
    requires Enabled(s, a)
    ensures a == Abandon(turn) ==> turn !in Step(s, a).waiters
  {
  }

  lemma TurnEnds(s: Inbox, a: Action, turn: string)
    requires Enabled(s, a) && turn in s.waiters && turn !in Step(s, a).waiters
    ensures a == Abandon(turn) || EndsTurn(s, Step(s, a), turn)
  {
    hide Turns, EndsTurn, CancelDispatchStep, CancelEndStep, FinishStep, InjectablePrefix, Held, Cancelling, Calling;
    match a
    case Finish(w) => FinishEnds(s, w, turn);
    case CancelDispatch(w) => CancelDispatchEnds(s, w, turn);
    case CancelEnd(call) => CancelEndEnds(s, call, turn);
    case _ =>
  }
}
