/** What every action keeps true of a session's inbox. */
module InboxProofs {
  import opened Wrappers
  import opened InboxModel

  // ----- who owns the queue -----------------------------------------------------------------

  /** A registered queue has its worker, or a cancel call under way that will take it. */
  ghost predicate QueueIsServed(registered: Option<nat>, workers: seq<Worker>, reclaims: map<nat, Reclaim>) {
    registered.Some? ==>
      && registered.value < |workers|
      && (Live(workers, registered.value) ||
          exists c :: c in reclaims && Takes(reclaims[c], registered.value))
  }

  predicate Takes(r: Reclaim, q: nat) {
    q in r.tasks && r.caller != FromWorker(q)
  }

  /** A live worker serves the registered queue, unless its queue was taken from it. */
  ghost predicate LiveWorkersServe(registered: Option<nat>, workers: seq<Worker>, orphaned: set<nat>) {
    forall w :: 0 <= w < |workers| && workers[w].phase != Exited ==> registered == Some(w) || w in orphaned
  }

  predicate Serving(phase: Phase) {
    phase.Top? || phase.Dispatching?
  }

  /** Messages wait only in the registered queue, or in one that was taken from its worker and that still has it. */
  ghost predicate QueuesHaveServers(registered: Option<nat>, workers: seq<Worker>, orphaned: set<nat>) {
    forall w :: 0 <= w < |workers| && workers[w].queue != [] ==>
      registered == Some(w) || (w in orphaned && Serving(workers[w].phase))
  }

  /** Workers inside their own cancel call dispatch a command, and no drain holds messages in a command. */
  ghost predicate CallersWait(workers: seq<Worker>, reclaims: map<nat, Reclaim>) {
    && (forall c :: c in reclaims && reclaims[c].caller.FromWorker? ==>
          var w := reclaims[c].caller.w;
          w < |workers| && workers[w].phase.Dispatching? && workers[w].phase.msg.kind == Command)
    && forall w :: 0 <= w < |workers| && workers[w].phase.Dispatching? && workers[w].phase.msg.kind == Command ==>
         workers[w].phase.held.None?
  }

  ghost predicate OrphansHaveNoQueue(registered: Option<nat>, workers: seq<Worker>, orphaned: set<nat>) {
    && (forall w :: w in orphaned ==> w < |workers|)
    && (registered.Some? ==> registered.value !in orphaned)
  }

  ghost predicate TasksAreWorkers(workers: seq<Worker>, active: set<nat>, reclaims: map<nat, Reclaim>) {
    && (forall w :: w in active ==> w < |workers|)
    && (forall c, w :: c in reclaims && w in reclaims[c].tasks ==> w < |workers|)
    && (forall c :: c in reclaims && reclaims[c].pending.Some? ==> reclaims[c].pending.value < |workers|)
  }

  /** If any task is tracked, the registered queue's worker is. */
  ghost predicate OwnerIsTracked(registered: Option<nat>, active: set<nat>) {
    registered.Some? && active != {} ==> registered.value in active
  }

  /** What a cancel call knows of the registered queue. */
  ghost predicate ReclaimOk(r: Reclaim, registered: Option<nat>, active: set<nat>) {
    && r.tasks !! active
    && (registered.Some? && registered.value in r.tasks ==> r.pending == registered)
    && (registered.Some? && r.pending == registered && r.tasks != {} ==> registered.value in r.tasks)
  }

  ghost predicate ReclaimsOk(reclaims: map<nat, Reclaim>, registered: Option<nat>, active: set<nat>) {
    forall c :: c in reclaims ==> ReclaimOk(reclaims[c], registered, active)
  }

  ghost predicate Owned(s: Inbox) {
    && QueueIsServed(s.registered, s.workers, s.reclaims)
    && LiveWorkersServe(s.registered, s.workers, s.orphaned)
    && QueuesHaveServers(s.registered, s.workers, s.orphaned)
    && CallersWait(s.workers, s.reclaims)
    && OrphansHaveNoQueue(s.registered, s.workers, s.orphaned)
    && TasksAreWorkers(s.workers, s.active, s.reclaims)
    && OwnerIsTracked(s.registered, s.active)
    && ReclaimsOk(s.reclaims, s.registered, s.active)
    && (s.deferred != [] ==> s.registered.Some? || s.popped)
  }

  /** What a worker may become while the registered queue stays the registered one. */
  ghost predicate Fits(s: Inbox, w: nat, worker: Worker) {
    && IsWorker(s, w)
    && (worker.phase != Exited ==> Live(s.workers, w))
    && (worker.phase == Exited && Live(s.workers, w) ==> s.registered != Some(w) || Cancelling(s, w))
    && (worker.queue != [] ==> s.registered == Some(w) || (w in s.orphaned && Serving(worker.phase)))
    && (worker.phase.Dispatching? && worker.phase.msg.kind == Command ==> worker.phase.held.None?)
    && (Calling(s, w) ==> worker.phase.Dispatching? && worker.phase.msg.kind == Command)
  }

  lemma WorkerKeepsOwned(s: Inbox, w: nat, worker: Worker)
    requires Owned(s) && Fits(s, w, worker)
    ensures Owned(s.(workers := s.workers[w := worker]))
  {
    var s' := s.(workers := s.workers[w := worker]);
    if worker.phase == Exited && Live(s.workers, w) && s.registered == Some(w) {
      var c :| c in s.reclaims && w in s.reclaims[c].tasks && s.reclaims[c].caller != FromWorker(w);
      assert Takes(s.reclaims[c], w);
    }
  }

  /** Logs, waiters, the lock, inline commands and the end of the deferred turns do not matter. */
  lemma OwnedIgnoresRest(s: Inbox, s': Inbox)
    requires Owned(s)
    requires s' == s.(deferred := s'.deferred, lock := s'.lock, inline := s'.inline, logs := s'.logs,
                      waiters := s'.waiters)
    requires s'.deferred != [] ==> s.deferred != [] || s.registered.Some?
    ensures Owned(s')
  {
  }

  lemma IdleIsNotCalling(s: Inbox, w: nat)
    requires Owned(s) && IsWorker(s, w) && !s.workers[w].phase.Dispatching?
    ensures !Calling(s, w)
  {
  }

  lemma EnqueueKeepsOwned(s: Inbox, m: Msg)
    requires Owned(s)
    ensures Owned(EnqueueStep(s, m))
  {
    var s' := EnqueueStep(s, m);
    if m.defers && s.registered.Some? {
      assert s' == s.(deferred := s'.deferred, logs := s'.logs);
    } else if s.registered.Some? {
      var q := s.registered.value;
      assert Fits(s, q, s'.workers[q]);
      hide Owned;
      WorkerKeepsOwned(s, q, s'.workers[q]);
      OwnedIgnoresRest(s.(workers := s'.workers), s');
    } else {
      QueueStarts(s, m);
    }
  }

  /** A message for an idle session starts a worker of its own. */
  lemma QueueStarts(s: Inbox, m: Msg)
    requires Owned(s) && s.registered.None?
    ensures Owned(EnqueueStep(s, m))
  {
    assert forall c, w :: c in s.reclaims && w in s.reclaims[c].tasks ==> w != |s.workers|;
  }

  lemma PhaseKeepsOwned(s: Inbox, w: nat, phase: Phase)
    requires Owned(s) && Live(s.workers, w) && phase in {Top, Exited} && !Calling(s, w)
    requires phase == Exited ==> s.workers[w].phase == Scheduled && Cancelling(s, w)
    ensures Owned(SetPhase(s, w, phase))
  {
    assert Fits(s, w, s.workers[w].(phase := phase));
    hide Owned;
    WorkerKeepsOwned(s, w, s.workers[w].(phase := phase));
  }

  lemma TakeKeepsOwned(s: Inbox, w: nat)
    requires Owned(s) && Enabled(s, Take(w))
    ensures Owned(TakeStep(s, w))
  {
    var s' := TakeStep(s, w);
    IdleIsNotCalling(s, w);
    if s'.registered == s.registered {
      assert Fits(s, w, s'.workers[w]);
      hide Owned;
      WorkerKeepsOwned(s, w, s'.workers[w]);
      OwnedIgnoresRest(s.(workers := s'.workers), s');
    } else {
      QueueEnds(s, w);
    }
  }

  /** The session is idle again. */
  lemma QueueEnds(s: Inbox, w: nat)
    requires Owned(s) && s.registered == Some(w) && IsWorker(s, w) && s.workers[w].phase == Top
    requires s.workers[w].queue == [] && s.deferred == []
    ensures Owned(SetPhase(s, w, Exited).(registered := None))
  {
  }

  lemma DrainKeepsOwned(s: Inbox, w: nat, count: nat)
    requires Owned(s) && IsDispatching(s, w)
    ensures s.workers[w].phase.msg.kind != Command ==> Owned(DrainStartStep(s, w))
    ensures count <= |Held(s.workers[w])| ==> Owned(DrainEndStep(s, w, count))
  {
    if s.workers[w].phase.msg.kind != Command {
      assert Fits(s, w, DrainStartStep(s, w).workers[w]);
      assert Owned(DrainStartStep(s, w)) by {
        hide Owned;
        WorkerKeepsOwned(s, w, DrainStartStep(s, w).workers[w]);
      }
    }
    if count <= |Held(s.workers[w])| {
      var s' := DrainEndStep(s, w, count);
      assert Fits(s, w, s'.workers[w]);
      hide Owned;
      WorkerKeepsOwned(s, w, s'.workers[w]);
      OwnedIgnoresRest(s.(workers := s'.workers), s');
    }
  }

  lemma ContinueKeepsOwned(s: Inbox, w: nat, id: nat)
    requires Owned(s) && Enabled(s, Continue(w, id))
    ensures Owned(ContinueStep(s, w, id))
  {
    var s' := ContinueStep(s, w, id);
    assert Fits(s, w, s'.workers[w]);
    hide Owned;
    WorkerKeepsOwned(s, w, s'.workers[w]);
    OwnedIgnoresRest(s.(workers := s'.workers), s');
  }

  lemma CancelDispatchKeepsOwned(s: Inbox, w: nat)
    requires Owned(s) && Enabled(s, CancelDispatch(w))
    ensures Owned(CancelDispatchStep(s, w))
  {
    var s' := CancelDispatchStep(s, w);
    if s'.registered.Some? && !Live(s'.workers, s'.registered.value) {
      var q := s'.registered.value;
      var c :| c in s.reclaims && Takes(s.reclaims[c], q);
    }
  }

  lemma UntrackKeepsOwned(s: Inbox, w: nat)
    requires Owned(s) && Enabled(s, Untrack(w))
    ensures Owned(s.(active := s.active - {w}))
  {
    if s.registered == Some(w) {
      var c :| c in s.reclaims && Takes(s.reclaims[c], w);
      assert w !in s.active && s.active == {};
    }
  }

  lemma CancelBeginKeepsOwned(s: Inbox, call: nat, caller: Caller)
    requires Owned(s) && call !in s.reclaims
    requires caller.FromWorker? ==> IsDispatching(s, caller.w) && s.workers[caller.w].phase.msg.kind == Command
    ensures Owned(CancelBeginStep(s, call, caller))
  {
    var s' := CancelBeginStep(s, call, caller);
    if s.registered.Some? && !Live(s.workers, s.registered.value) {
      var c :| c in s.reclaims && Takes(s.reclaims[c], s.registered.value);
      assert c in s'.reclaims && Takes(s'.reclaims[c], s.registered.value);
    }
  }

  /** The call ends without taking a queue. */
  lemma CallEnds(s: Inbox, call: nat)
    requires Owned(s) && Enabled(s, CancelEnd(call))
    requires s.reclaims[call].tasks == {} || s.registered.None? || s.registered != s.reclaims[call].pending
    ensures Owned(s.(reclaims := s.reclaims - {call}))
  {
    var s' := s.(reclaims := s.reclaims - {call});
    if s'.registered.Some? && !Live(s'.workers, s'.registered.value) {
      var q := s'.registered.value;
      var c :| c in s.reclaims && Takes(s.reclaims[c], q);
      assert c != call;
      assert c in s'.reclaims && Takes(s'.reclaims[c], q);
    }
  }

  lemma QueueIsReclaimed(s: Inbox, call: nat)
    requires Owned(s) && Enabled(s, CancelEnd(call))
    requires s.reclaims[call].tasks != {} && s.registered.Some? && s.registered == s.reclaims[call].pending
    ensures Owned(CancelEndStep(s, call))
  {
  }

  lemma CancelEndKeepsOwned(s: Inbox, call: nat)
    requires Owned(s) && Enabled(s, CancelEnd(call))
    ensures Owned(CancelEndStep(s, call))
  {
    var r := s.reclaims[call];
    if r.tasks != {} && s.registered.Some? && s.registered == r.pending {
      QueueIsReclaimed(s, call);
    } else {
      CallEnds(s, call);
    }
  }

  lemma StopPopKeepsOwned(s: Inbox)
    requires Owned(s)
    ensures Owned(StopPopStep(s))
  {
  }

  lemma InlineBeginKeepsOwned(s: Inbox, call: nat, stop: bool)
    requires Owned(s) && call !in s.reclaims
    ensures Owned(InlineBeginStep(s, call, stop))
  {
    CancelBeginKeepsOwned(s, call, FromBus);
    hide Owned;
    OwnedIgnoresRest(CancelBeginStep(s, call, FromBus), InlineBeginStep(s, call, stop));
  }

  lemma InlineEndKeepsOwned(s: Inbox)
    requires Owned(s) && s.inline.Some?
    ensures Owned(InlineEndStep(s))
  {
    StopPopKeepsOwned(s);
    hide Owned, StopPopStep;
    var after := if s.inline.value.stop then StopPopStep(s) else s;
    OwnedIgnoresRest(after, after.(inline := None));
  }

  lemma StepKeepsOwned(s: Inbox, a: Action)
    requires Owned(s) && Enabled(s, a)
    ensures Owned(Step(s, a))
  {
    hide Owned, EnqueueStep, SetPhase, TakeStep, DrainStartStep, DrainEndStep, FinishStep, CancelDispatchStep,
         ContinueStep, CancelBeginStep, InlineBeginStep, CancelEndStep, StopPopStep, InlineEndStep, Cancelling;
    match a
    case Enqueue(m) => EnqueueKeepsOwned(s, m);
    case Submit(m) =>
      OwnedIgnoresRest(s, s.(waiters := s.waiters + Turns([m])));
      EnqueueKeepsOwned(s.(waiters := s.waiters + Turns([m])), m);
    case Abandon(turn) => OwnedIgnoresRest(s, s.(waiters := s.waiters - {turn}));
    case Begin(w) =>
      IdleIsNotCalling(s, w);
      PhaseKeepsOwned(s, w, Top);
    case Take(w) => TakeKeepsOwned(s, w);
    case DrainStart(w) => DrainKeepsOwned(s, w, 0);
    case DrainEnd(w, count) => DrainKeepsOwned(s, w, count);
    case Lock(w) => OwnedIgnoresRest(s, s.(lock := Some(Turn(w))));
    case Continue(w, id) => ContinueKeepsOwned(s, w, id);
    case OutsideLock => OwnedIgnoresRest(s, s.(lock := Some(Outside)));
    case OutsideUnlock => OwnedIgnoresRest(s, s.(lock := None));
    case Finish(w) =>
      PhaseKeepsOwned(s, w, Top);
      FinishKeepsOwned(s, w);
    case CancelDispatch(w) => CancelDispatchKeepsOwned(s, w);
    case CancelScheduled(w) =>
      IdleIsNotCalling(s, w);
      PhaseKeepsOwned(s, w, Exited);
    case Untrack(w) => UntrackKeepsOwned(s, w);
    case CancelBegin(call, caller) => CancelBeginKeepsOwned(s, call, caller);
    case CancelEnd(call) => CancelEndKeepsOwned(s, call);
    case InlineBegin(call, stop) => InlineBeginKeepsOwned(s, call, stop);
    case InlineEnd => InlineEndKeepsOwned(s);
  }

  lemma FinishKeepsOwned(s: Inbox, w: nat)
    requires IsDispatching(s, w) && Owned(SetPhase(s, w, Top))
    ensures Owned(FinishStep(s, w))
  {
    OwnedIgnoresRest(SetPhase(s, w, Top), FinishStep(s, w));
  }
}
