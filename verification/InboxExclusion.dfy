/**
 Turns exclude each other, and so do the commands of the loop over the bus. For every run of a session's inbox: a stop
 command never meets a drain, and a worker that lost its queue has nothing in it but continuations of its own turn.
 */
module InboxExclusion {
  import opened Wrappers
  import opened InboxModel
  import opened InboxProofs

  predicate Draining(worker: Worker) {
    worker.phase.Dispatching? && worker.phase.held.Some?
  }

  ghost predicate LockIsHeld(workers: seq<Worker>, lock: Option<Holder>) {
    lock.Some? && lock.value.Turn? ==> lock.value.w < |workers| && workers[lock.value.w].phase.Dispatching?
  }

  /** A cancel call is made by the inline command under way, or under the session's lock. */
  predicate MayCancel(c: nat, caller: Caller, lock: Option<Holder>, inline: Option<Inline>) {
    match caller
    case FromBus => inline.Some? && inline.value.call == c
    case FromOutside => lock == Some(Outside)
    case FromWorker(w) => lock == Some(Turn(w))
  }

  ghost predicate CallersMay(reclaims: map<nat, Reclaim>, lock: Option<Holder>, inline: Option<Inline>) {
    forall c :: c in reclaims ==> MayCancel(c, reclaims[c].caller, lock, inline)
  }

  /** Only the session's worker drains, under the lock. */
  ghost predicate DrainsHaveLock(registered: Option<nat>, workers: seq<Worker>, lock: Option<Holder>) {
    forall w :: 0 <= w < |workers| && Draining(workers[w]) ==> lock == Some(Turn(w)) && registered == Some(w)
  }

  /** The registered queue's worker is tracked, or a cancel call under way took it from the tracked ones. */
  ghost predicate QueueIsTracked(registered: Option<nat>, active: set<nat>, reclaims: map<nat, Reclaim>) {
    registered.Some? ==>
      registered.value in active || exists c :: c in reclaims && registered.value in reclaims[c].tasks
  }

  predicate NoneInjectable(ms: seq<Msg>) {
    forall m :: m in ms ==> !Injectable(m)
  }

  /** While the bus is not read, tracked workers are new ones; these do not drain and have nothing to inject. */
  ghost predicate NewQueuesHoldTurns(workers: seq<Worker>, active: set<nat>, inline: Option<Inline>) {
    inline.Some? ==>
      && inline.value.first <= |workers|
      && (forall w :: w in active ==> inline.value.first <= w)
      && forall w :: inline.value.first <= w < |workers| ==> NoneInjectable(workers[w].queue) && !Draining(workers[w])
  }

  predicate OnlyContinuations(ms: seq<Msg>) {
    forall m :: m in ms ==> m.kind == Continuation
  }

  ghost predicate OrphansHoldContinuations(registered: Option<nat>, workers: seq<Worker>) {
    forall w :: 0 <= w < |workers| && registered != Some(w) ==> OnlyContinuations(workers[w].queue)
  }

  /** The worker that made a call makes this one, or is among its tasks. */
  predicate Concerns(r: Reclaim, caller: Caller) {
    caller.FromWorker? && (caller.w in r.tasks || r.caller == caller)
  }

  /** A worker inside its own cancel call makes no other, and no other call has it among its tasks. */
  ghost predicate OwnCallsAreAlone(active: set<nat>, reclaims: map<nat, Reclaim>) {
    && (forall c :: c in reclaims && reclaims[c].caller.FromWorker? ==> reclaims[c].caller.w !in active)
    && (forall c, d :: c in reclaims && d in reclaims && Concerns(reclaims[d], reclaims[c].caller) ==> c == d)
  }

  ghost predicate Exclusive(s: Inbox) {
    && LockIsHeld(s.workers, s.lock)
    && CallersMay(s.reclaims, s.lock, s.inline)
    && DrainsHaveLock(s.registered, s.workers, s.lock)
    && QueueIsTracked(s.registered, s.active, s.reclaims)
    && NewQueuesHoldTurns(s.workers, s.active, s.inline)
    && OrphansHoldContinuations(s.registered, s.workers)
    && OwnCallsAreAlone(s.active, s.reclaims)
  }

  // ----- one worker changes -------------------------------------------------------------------

  predicate IsNew(s: Inbox, w: nat) {
    s.inline.Some? && s.inline.value.first <= w
  }

  predicate QueueFits(s: Inbox, w: nat, queue: seq<Msg>) {
    && (IsNew(s, w) ==> NoneInjectable(queue))
    && (s.registered != Some(w) ==> OnlyContinuations(queue))
  }

  /** The lock stays with its holder, goes to the worker from nobody, or is given up by it outside a cancel call. */
  ghost predicate LockFits(s: Inbox, w: nat, lock: Option<Holder>) {
    || lock == s.lock
    || (s.lock.None? && lock == Some(Turn(w)))
    || (s.lock == Some(Turn(w)) && lock.None? && !Calling(s, w))
  }

  ghost predicate Excludes(s: Inbox, w: nat, worker: Worker, lock: Option<Holder>) {
    && IsWorker(s, w) && QueueFits(s, w, worker.queue) && LockFits(s, w, lock)
    && (lock == Some(Turn(w)) ==> worker.phase.Dispatching?)
    && (Draining(worker) ==> lock == Some(Turn(w)) && s.registered == Some(w) && !IsNew(s, w))
  }

  lemma WorkerKeepsExclusive(s: Inbox, w: nat, worker: Worker, lock: Option<Holder>)
    requires Exclusive(s) && Excludes(s, w, worker, lock)
    ensures Exclusive(s.(workers := s.workers[w := worker], lock := lock))
  {
    hide NoneInjectable, OnlyContinuations, Draining;
    if s.lock == Some(Turn(w)) && lock.None? {
      forall c | c in s.reclaims ensures MayCancel(c, s.reclaims[c].caller, lock, s.inline) {
        assert MayCancel(c, s.reclaims[c].caller, s.lock, s.inline);
      }
    }
  }

  lemma ExclusiveIgnoresRest(s: Inbox, s': Inbox)
    requires Exclusive(s)
    requires s' == s.(deferred := s'.deferred, orphaned := s'.orphaned, popped := s'.popped, logs := s'.logs,
                      waiters := s'.waiters)
    ensures Exclusive(s')
  {
  }

  lemma QueueAt(s: Inbox, w: nat)
    requires Exclusive(s) && IsWorker(s, w)
    ensures QueueFits(s, w, s.workers[w].queue)
    ensures s.lock == Some(Turn(w)) ==> s.workers[w].phase.Dispatching?
    ensures Draining(s.workers[w]) ==> s.lock == Some(Turn(w)) && s.registered == Some(w) && !IsNew(s, w)
  {
  }

  lemma PartsFit(s: Inbox, w: nat, a: seq<Msg>, b: seq<Msg>)
    ensures QueueFits(s, w, a + b) <==> QueueFits(s, w, a) && QueueFits(s, w, b)
  {
    assert forall m :: m in a + b <==> m in a || m in b;
  }

  // ----- the actions ----------------------------------------------------------------------------

  /** A message that arrives while the bus is not read is not one that may be injected. */
  lemma EnqueueKeepsExclusive(s: Inbox, m: Msg)
    requires Owned(s) && Exclusive(s) && (s.inline.Some? ==> !Injectable(m))
    ensures Exclusive(EnqueueStep(s, m))
  {
    hide Owned;
    var s' := EnqueueStep(s, m);
    if m.defers && s.registered.Some? {
      ExclusiveIgnoresRest(s, s');
    } else if s.registered.Some? && IsWorker(s, s.registered.value) {
      var q := s.registered.value;
      QueueAt(s, q);
      PartsFit(s, q, s.workers[q].queue, [m]);
      hide Exclusive;
      WorkerKeepsExclusive(s, q, s'.workers[q], s.lock);
      ExclusiveIgnoresRest(s.(workers := s'.workers), s');
    } else {
      RegisteredExists(s);
      NewWorkerKeepsExclusive(s, m);
    }
  }

  lemma RegisteredExists(s: Inbox)
    requires Owned(s)
    ensures s.registered.Some? ==> IsWorker(s, s.registered.value)
    ensures forall w :: w in s.active ==> w < |s.workers|
    ensures forall c, w :: c in s.reclaims && w in s.reclaims[c].tasks ==> w < |s.workers|
  {
  }

  lemma NewWorkerKeepsExclusive(s: Inbox, m: Msg)
    requires Exclusive(s) && s.registered.None? && (s.inline.Some? ==> !Injectable(m))
    ensures Exclusive(EnqueueStep(s, m))
  {
    var s' := EnqueueStep(s, m);
    var w := |s.workers|;
    assert NoneInjectable([m]) || s.inline.None?;
    hide NoneInjectable, OnlyContinuations;
    assert forall v :: 0 <= v < w ==> s'.workers[v] == s.workers[v];
    forall c | c in s.reclaims && s.reclaims[c].caller.FromWorker? ensures s.reclaims[c].caller.w != w {
      assert MayCancel(c, s.reclaims[c].caller, s.lock, s.inline);
    }
  }

  lemma TakeKeepsExclusive(s: Inbox, w: nat)
    requires Exclusive(s) && Enabled(s, Take(w))
    ensures Exclusive(TakeStep(s, w))
  {
    var s', worker := TakeStep(s, w), s.workers[w];
    QueueAt(s, w);
    if s'.registered == s.registered {
      if worker.queue != [] {
        PartsFit(s, w, [worker.queue[0]], worker.queue[1..]);
        assert worker.queue == [worker.queue[0]] + worker.queue[1..];
      }
      hide Exclusive;
      WorkerKeepsExclusive(s, w, s'.workers[w], s.lock);
      ExclusiveIgnoresRest(s.(workers := s'.workers), s');
    } else {
      NobodyDrains(s, w);
    }
  }

  /** The session's worker ends; nobody else can be draining. */
  lemma NobodyDrains(s: Inbox, w: nat)
    requires Exclusive(s) && s.registered == Some(w) && IsWorker(s, w) && s.workers[w].phase == Top
    requires s.workers[w].queue == []
    ensures Exclusive(SetPhase(s, w, Exited).(registered := None))
  {
    hide NoneInjectable, OnlyContinuations;
    assert OnlyContinuations([]) by { NothingWaits(); }
  }

  lemma NothingWaits()
    ensures OnlyContinuations([]) && NoneInjectable([])
  {
  }

  lemma DrainStartKeepsExclusive(s: Inbox, w: nat)
    requires Exclusive(s) && Enabled(s, DrainStart(w))
    ensures Exclusive(DrainStartStep(s, w))
  {
    QueueAt(s, w);
    assert s.workers[w].queue[0] in s.workers[w].queue;
    hide Exclusive;
    WorkerKeepsExclusive(s, w, DrainStartStep(s, w).workers[w], s.lock);
  }

  lemma DrainEndKeepsExclusive(s: Inbox, w: nat, count: nat)
    requires Exclusive(s) && Enabled(s, DrainEnd(w, count))
    ensures Exclusive(DrainEndStep(s, w, count))
  {
    hide InjectablePrefix;
    var s' := DrainEndStep(s, w, count);
    QueueAt(s, w);
    hide Exclusive;
    WorkerKeepsExclusive(s, w, s'.workers[w], s.lock);
    ExclusiveIgnoresRest(s.(workers := s'.workers), s');
  }

  lemma ContinueKeepsExclusive(s: Inbox, w: nat, id: nat)
    requires Exclusive(s) && Enabled(s, Continue(w, id))
    ensures Exclusive(ContinueStep(s, w, id))
  {
    var s' := ContinueStep(s, w, id);
    QueueAt(s, w);
    PartsFit(s, w, s.workers[w].queue, [s'.workers[w].queue[|s.workers[w].queue|]]);
    hide Exclusive;
    WorkerKeepsExclusive(s, w, s'.workers[w], s.lock);
    ExclusiveIgnoresRest(s.(workers := s'.workers), s');
  }

  lemma FinishKeepsExclusive(s: Inbox, w: nat)
    requires Exclusive(s) && Enabled(s, Finish(w))
    ensures Exclusive(FinishStep(s, w))
  {
    var s' := FinishStep(s, w);
    QueueAt(s, w);
    hide Exclusive;
    WorkerKeepsExclusive(s, w, s'.workers[w], s'.lock);
    ExclusiveIgnoresRest(s.(workers := s'.workers, lock := s'.lock), s');
  }

  lemma PhaseKeepsExclusive(s: Inbox, w: nat, phase: Phase)
    requires Exclusive(s) && IsWorker(s, w) && s.workers[w].phase == Scheduled && phase in {Top, Exited}
    ensures Exclusive(SetPhase(s, w, phase))
  {
    QueueAt(s, w);
    hide Exclusive;
    WorkerKeepsExclusive(s, w, s.workers[w].(phase := phase), s.lock);
  }

  lemma LockKeepsExclusive(s: Inbox, w: nat)
    requires Exclusive(s) && Enabled(s, Lock(w))
    ensures Exclusive(s.(lock := Some(Turn(w))))
  {
    QueueAt(s, w);
    hide Exclusive;
    WorkerKeepsExclusive(s, w, s.workers[w], Some(Turn(w)));
    assert s.workers[w := s.workers[w]] == s.workers;
  }

  /** A direct call takes the lock from nobody, and gives it up when it cancels nothing. */
  lemma OutsideKeepsExclusive(s: Inbox)
    requires Exclusive(s)
    ensures s.lock.None? ==> Exclusive(s.(lock := Some(Outside)))
    ensures Enabled(s, OutsideUnlock) ==> Exclusive(s.(lock := None))
  {
    hide NoneInjectable, OnlyContinuations;
    assert forall c :: c in s.reclaims ==> MayCancel(c, s.reclaims[c].caller, s.lock, s.inline);
  }

  lemma CancelDispatchKeepsExclusive(s: Inbox, w: nat)
    requires Exclusive(s) && Enabled(s, CancelDispatch(w))
    ensures Exclusive(CancelDispatchStep(s, w))
  {
    var s' := CancelDispatchStep(s, w);
    NothingWaits();
    QueueAt(s, w);
    var between := s.(workers := s'.workers, lock := s'.lock);
    assert Exclusive(between) by {
      hide Exclusive;
      WorkerKeepsExclusive(s, w, s'.workers[w], s'.lock);
    }
    assert Exclusive(between.(registered := s'.registered)) by {
      if s'.registered != s.registered { UnregisteringKeepsExclusive(between, w); }
    }
    hide Exclusive;
    ExclusiveIgnoresRest(between.(registered := s'.registered), s');
  }

  /** A queue with nothing in it goes, from a worker that does not drain. */
  lemma UnregisteringKeepsExclusive(s: Inbox, w: nat)
    requires Exclusive(s) && s.registered == Some(w) && IsWorker(s, w)
    requires s.workers[w].queue == [] && !Draining(s.workers[w])
    ensures Exclusive(s.(registered := None))
  {
    hide NoneInjectable;
  }

  lemma CancelBeginKeepsExclusive(s: Inbox, call: nat, caller: Caller)
    requires Owned(s) && Exclusive(s) && Enabled(s, CancelBegin(call, caller))
    ensures Exclusive(CancelBeginStep(s, call, caller))
  {
    CallersAreUntracked(s);
    hide Owned, NoneInjectable, OnlyContinuations;
    var s' := CancelBeginStep(s, call, caller);
    forall c | c in s'.reclaims ensures MayCancel(c, s'.reclaims[c].caller, s.lock, s.inline) {
      assert c != call ==> MayCancel(c, s.reclaims[c].caller, s.lock, s.inline);
    }
    assert s.registered.Some? ==>
        s.registered.value in s'.reclaims[call].tasks ||
        exists c :: c in s.reclaims && c in s'.reclaims && s.registered.value in s'.reclaims[c].tasks;
  }

  lemma CallersAreUntracked(s: Inbox)
    requires Exclusive(s)
    ensures forall c :: c in s.reclaims && s.reclaims[c].caller.FromWorker? ==> s.reclaims[c].caller.w !in s.active
  {
  }

  lemma InlineBeginKeepsExclusive(s: Inbox, call: nat, stop: bool)
    requires Owned(s) && Exclusive(s) && Enabled(s, InlineBegin(call, stop))
    ensures Exclusive(InlineBeginStep(s, call, stop))
  {
    hide Owned, NoneInjectable, OnlyContinuations;
    var s' := InlineBeginStep(s, call, stop);
    forall c | c in s'.reclaims ensures MayCancel(c, s'.reclaims[c].caller, s.lock, s'.inline) {
      assert c != call ==> MayCancel(c, s.reclaims[c].caller, s.lock, s.inline);
    }
    assert s.registered.Some? ==>
        s.registered.value in s'.reclaims[call].tasks ||
        exists c :: c in s.reclaims && c in s'.reclaims && s.registered.value in s'.reclaims[c].tasks;
  }

  lemma CallEndKeepsExclusive(s: Inbox, call: nat)
    requires Owned(s) && Exclusive(s) && Enabled(s, CancelEnd(call))
    requires s.reclaims[call].tasks == {} || s.registered.None? || s.registered != s.reclaims[call].pending
    ensures Exclusive(s.(reclaims := s.reclaims - {call}))
  {
    hide NoneInjectable, OnlyContinuations;
    var s' := s.(reclaims := s.reclaims - {call});
    forall c | c in s'.reclaims ensures MayCancel(c, s'.reclaims[c].caller, s.lock, s.inline) {
      assert MayCancel(c, s.reclaims[c].caller, s.lock, s.inline);
    }
    assert s.registered.Some? ==> s.registered.value !in s.reclaims[call].tasks;
    hide Owned;
    if s.registered.Some? && s.registered.value !in s.active {
      var c :| c in s.reclaims && s.registered.value in s.reclaims[c].tasks;
      assert c in s'.reclaims;
    }
  }

  lemma ReclaimKeepsExclusive(s: Inbox, call: nat)
    requires Owned(s) && Exclusive(s) && Enabled(s, CancelEnd(call))
    requires s.reclaims[call].tasks != {} && s.registered.Some? && s.registered == s.reclaims[call].pending
    ensures Exclusive(CancelEndStep(s, call))
  {
    var q := s.registered.value;
    assert q in s.reclaims[call].tasks && IsWorker(s, q) && !Draining(s.workers[q]);
    hide Owned;
    NothingWaits();
    QueueAt(s, q);
    var s' := CancelEndStep(s, call);
    var emptied := s.(workers := s'.workers);
    assert Exclusive(emptied) by {
      hide Exclusive;
      WorkerKeepsExclusive(s, q, s'.workers[q], s.lock);
    }
    UnregisteringKeepsExclusive(emptied, q);
    var gone := emptied.(registered := None);
    assert Exclusive(gone.(reclaims := s'.reclaims)) by { CallGoes(gone, call); }
    hide Exclusive;
    ExclusiveIgnoresRest(gone.(reclaims := s'.reclaims), s');
  }

  lemma CallGoes(s: Inbox, call: nat)
    requires Exclusive(s) && s.registered.None? && call in s.reclaims
    ensures Exclusive(s.(reclaims := s.reclaims - {call}))
  {
    hide NoneInjectable, OnlyContinuations;
    forall c | c in s.reclaims && c != call ensures MayCancel(c, s.reclaims[c].caller, s.lock, s.inline) {
    }
  }

  lemma CancelEndKeepsExclusive(s: Inbox, call: nat)
    requires Owned(s) && Exclusive(s) && Enabled(s, CancelEnd(call))
    ensures Exclusive(CancelEndStep(s, call))
  {
    hide Exclusive;
    RegisteredExists(s);
    hide Owned;
    var r := s.reclaims[call];
    if r.tasks != {} && s.registered.Some? && s.registered == r.pending {
      ReclaimKeepsExclusive(s, call);
    } else {
      CallEndKeepsExclusive(s, call);
    }
  }

  // ----- the stop command never meets a drain ----------------------------------------------------

  /**
   When an inline command ends, the session's worker is not draining: it is new, and new queues have nothing to inject;
   or another cancel call has it, and whoever makes that call has the lock.
   */
  lemma StopMeetsNoDrain(s: Inbox)
    requires Owned(s) && Exclusive(s) && Enabled(s, InlineEnd) && s.registered.Some?
    ensures IsWorker(s, s.registered.value) && !Draining(s.workers[s.registered.value])
    ensures IsNew(s, s.registered.value)
            || exists c :: c in s.reclaims && s.registered.value in s.reclaims[c].tasks
                           && !s.reclaims[c].caller.FromBus?
  {
    hide NoneInjectable, OnlyContinuations;
    var q := s.registered.value;
    if q !in s.active {
      var c :| c in s.reclaims && q in s.reclaims[c].tasks;
      assert MayCancel(c, s.reclaims[c].caller, s.lock, s.inline);
    }
  }

  lemma PopKeepsExclusive(s: Inbox)
    requires Owned(s) && Exclusive(s) && Enabled(s, InlineEnd)
    ensures Exclusive(StopPopStep(s))
  {
    RegisteredExists(s);
    if s.registered.Some? {
      StopMeetsNoDrain(s);
      hide Owned;
      var q := s.registered.value;
      NothingWaits();
      QueueAt(s, q);
      var s' := StopPopStep(s);
      var emptied := s.(workers := s'.workers);
      assert Exclusive(emptied) by {
        hide Exclusive;
        WorkerKeepsExclusive(s, q, s'.workers[q], s.lock);
      }
      UnregisteringKeepsExclusive(emptied, q);
      hide Exclusive;
      ExclusiveIgnoresRest(emptied.(registered := None), s');
    }
  }

  lemma InlineEndKeepsExclusive(s: Inbox)
    requires Owned(s) && Exclusive(s) && Enabled(s, InlineEnd)
    ensures Exclusive(InlineEndStep(s))
  {
    var after := if s.inline.value.stop then StopPopStep(s) else s;
    PopKeepsExclusive(s);
    hide Owned, StopPopStep;
    BusIsReadAgain(after);
  }

  lemma BusIsReadAgain(s: Inbox)
    requires Exclusive(s) && Enabled(s, InlineEnd)
    ensures Exclusive(s.(inline := None))
  {
    hide NoneInjectable, OnlyContinuations;
    forall c | c in s.reclaims ensures MayCancel(c, s.reclaims[c].caller, s.lock, None) {
      assert MayCancel(c, s.reclaims[c].caller, s.lock, s.inline);
    }
  }

  lemma UntrackKeepsExclusive(s: Inbox, w: nat)
    requires Owned(s) && Exclusive(s) && Enabled(s, Untrack(w))
    ensures Exclusive(s.(active := s.active - {w}))
  {
    if s.registered == Some(w) {
      var c :| c in s.reclaims && Takes(s.reclaims[c], w);
    }
    hide Owned, NoneInjectable, OnlyContinuations;
  }

  lemma StepKeepsExclusive(s: Inbox, a: Action)
    requires Owned(s) && Exclusive(s) && Enabled(s, a)
    ensures Exclusive(Step(s, a))
  {
    hide Owned, Exclusive, EnqueueStep, SetPhase, TakeStep, DrainStartStep, DrainEndStep, FinishStep,
         CancelDispatchStep, ContinueStep, CancelBeginStep, InlineBeginStep, CancelEndStep, StopPopStep,
         InlineEndStep, Cancelling;
    match a
    case Enqueue(m) => EnqueueKeepsExclusive(s, m);
    case Submit(m) =>
      OwnedIgnoresRest(s, s.(waiters := s.waiters + Turns([m])));
      ExclusiveIgnoresRest(s, s.(waiters := s.waiters + Turns([m])));
      EnqueueKeepsExclusive(s.(waiters := s.waiters + Turns([m])), m);
    case Abandon(turn) => ExclusiveIgnoresRest(s, s.(waiters := s.waiters - {turn}));
    case Begin(w) => PhaseKeepsExclusive(s, w, Top);
    case Take(w) => TakeKeepsExclusive(s, w);
    case Lock(w) => LockKeepsExclusive(s, w);
    case DrainStart(w) => DrainStartKeepsExclusive(s, w);
    case DrainEnd(w, count) => DrainEndKeepsExclusive(s, w, count);
    case Continue(w, id) => ContinueKeepsExclusive(s, w, id);
    case Finish(w) => FinishKeepsExclusive(s, w);
    case CancelDispatch(w) => CancelDispatchKeepsExclusive(s, w);
    case CancelScheduled(w) => PhaseKeepsExclusive(s, w, Exited);
    case Untrack(w) => UntrackKeepsExclusive(s, w);
    case OutsideLock => OutsideKeepsExclusive(s);
    case OutsideUnlock => OutsideKeepsExclusive(s);
    case CancelBegin(call, caller) => CancelBeginKeepsExclusive(s, call, caller);
    case InlineBegin(call, stop) => InlineBeginKeepsExclusive(s, call, stop);
    case CancelEnd(call) => CancelEndKeepsExclusive(s, call);
    case InlineEnd => InlineEndKeepsExclusive(s);
  }
}
