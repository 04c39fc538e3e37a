/** What a stop command discards, what becomes of waiters for it, and what a worker that lost its queue still has. */
module InboxStop {
  import opened Wrappers
  import opened InboxModel
  import opened InboxProofs
  import opened InboxExclusion
  import opened InboxTheorems

  // ----- what a stop command discards -------------------------------------------------------------------

  /**
   A stop command never meets a drain. The queue it pops was started since it began, and nothing from the bus is in it;
   or its worker is among the tasks of another cancel call, made under the lock.
   */
  lemma WhatStopPops(s: Inbox, a: Action)
    requires Reachable(s) && Enabled(s, a) && Pops(s, a)
    ensures var q := s.registered.value;
            && IsWorker(s, q) && !Draining(s.workers[q])
            && ((IsNew(s, q) && NoneInjectable(s.workers[q].queue))
                || exists c :: c in s.reclaims && q in s.reclaims[c].tasks && !s.reclaims[c].caller.FromBus?)
  {
    hide Owned, Exclusive, Conserved, WaitersOk, AllInOrder;
    ReachableIsOk(s);
    StopMeetsNoDrain(s);
    QueueAt(s, s.registered.value);
  }

  /** No worker that lost its queue drains, and none of them has anything but continuations in it. */
  lemma OrphansHaveOnlyContinuations(s: Inbox, w: nat)
    requires Reachable(s) && IsWorker(s, w) && s.registered != Some(w)
    ensures !Draining(s.workers[w]) && OnlyContinuations(s.workers[w].queue)
  {
    hide Owned, Conserved, WaitersOk, AllInOrder;
    ReachableIsOk(s);
  }

  /** What a step discards: the queue that a stop command pops. */
  function PoppedBy(s: Inbox, a: Action): multiset<Msg> {
    if Pops(s, a) && IsWorker(s, s.registered.value) then multiset(s.workers[s.registered.value].queue) else multiset{}
  }

  /** Messages are discarded exactly by a stop command that finds them in the queue it pops. */
  lemma DropsIff(s: Inbox, a: Action)
    requires Enabled(s, a)
    ensures Step(s, a).logs.dropped == s.logs.dropped + PoppedBy(s, a)
    ensures a.InlineEnd? ==> Step(s, a).logs == s.logs.(dropped := s.logs.dropped + PoppedBy(s, a))
    ensures a.InlineEnd? ==> Step(s, a).waiters == s.waiters
  {
    hide InjectablePrefix, Turns, EnqueueStep, TakeStep, DrainStartStep, DrainEndStep, ContinueStep, FinishStep,
         CancelDispatchStep, CancelEndStep;
    if !a.InlineEnd? { OthersDropNothing(s, a); }
  }

  lemma OthersDropNothing(s: Inbox, a: Action)
    requires Enabled(s, a) && !a.InlineEnd?
    ensures Step(s, a).logs.dropped == s.logs.dropped
  {
    hide InjectablePrefix, Turns;
  }

  /** What is in the queue a stop command pops, and nothing else, is no longer in flight when it has ended. */
  lemma PopBalances(s: Inbox, a: Action, m: Msg)
    requires Enabled(s, a) && a.InlineEnd?
    ensures InFlight(s)[m] == InFlight(Step(s, a))[m] + PoppedBy(s, a)[m]
  {
    StepBalances(s, a, m);
    DropsIff(s, a);
    hide InFlight, Step, Enabled, PoppedBy;
  }

  /**
   A waiter loses its message exactly when a stop command pops the queue and every message for the waiter is in it. In
   any other step of any run a message for an unresolved waiter stays in flight.
   */
  lemma WaiterLosesMessageIff(s: Inbox, a: Action, turn: string)
    requires Reachable(s) && Enabled(s, a) && turn in s.waiters && turn in Step(s, a).waiters
    requires Carries(InFlight(s), turn)
    ensures !Carries(InFlight(Step(s, a)), turn) <==>
              forall m :: IsFor(m, turn) ==> InFlight(s)[m] == PoppedBy(s, a)[m]
  {
    hide Owned, Exclusive, Conserved, WaitersOk, AllInOrder, InFlight, Enabled, Step, IsFor;
    ReachableIsOk(s);
    if a.InlineEnd? {
      forall m ensures InFlight(s)[m] == InFlight(Step(s, a))[m] + PoppedBy(s, a)[m] { PopBalances(s, a, m); }
    } else {
      var m :| m in InFlight(s) && IsFor(m, turn);
      DropsIff(s, a);
      StepBalances(s, a, m);
      WhatIsFor(m, turn);
      StepEndsOnly(s, a, m);
      assert m in InFlight(Step(s, a));
    }
  }

  lemma WhatIsFor(m: Msg, turn: string)
    requires IsFor(m, turn)
    ensures m.turn == Some(turn) && m.kind != Continuation
  {
  }

  // ----- a lost waiter is never resolved ------------------------------------------------------------------

  ghost predicate NothingFor(ms: multiset<Msg>, turn: string) {
    forall m :: m in ms ==> m.turn != Some(turn)
  }

  /** The submitter gives up waiting, or the bus brings a message with the turn's id. */
  predicate Interferes(a: Action, turn: string) {
    a == Abandon(turn) || (a.Enqueue? && a.msg.turn == Some(turn))
  }

  lemma {:induction false} ContentInFlight(workers: seq<Worker>, w: nat, m: Msg)
    requires w < |workers|
    ensures Content(workers[w])[m] <= Sum(workers)[m]
  {
    hide Content;
    var n := |workers| - 1;
    if w < n {
      ContentInFlight(workers[..n], w, m);
      assert workers[..n][w] == workers[w];
    }
  }

  /** Only a message that was in flight resolves a waiter. */
  lemma ResolvedByMessage(s: Inbox, a: Action, turn: string)
    requires Enabled(s, a) && turn in s.waiters && NothingFor(InFlight(s), turn) && !Interferes(a, turn)
    ensures turn in Step(s, a).waiters
  {
    hide InjectablePrefix, InFlight, NothingFor, EnqueueStep, FinishStep, CancelDispatchStep, CancelEndStep, TakeStep,
         DrainStartStep, DrainEndStep, StopPopStep, ContinueStep, Turns;
    match a
    case Submit(m) => EnqueueLeavesWaiters(s.(waiters := s.waiters + Turns([m])), m);
    case Enqueue(m) => EnqueueLeavesWaiters(s, m);
    case Finish(w) => DispatchResolves(s, w, turn);
    case CancelDispatch(w) => DispatchResolves(s, w, turn);
    case CancelEnd(call) => ReclaimResolves(s, call, turn);
    case InlineEnd => DropsIff(s, a);
    case Abandon(_) =>
    case _ => OthersResolveNothing(s, a);
  }

  lemma OthersResolveNothing(s: Inbox, a: Action)
    requires Enabled(s, a) && !a.Submit? && !a.Enqueue? && !a.Finish? && !a.CancelDispatch? && !a.CancelEnd?
    requires !a.InlineEnd? && !a.Abandon?
    ensures Step(s, a).waiters == s.waiters
  {
    hide InjectablePrefix, Turns;
  }

  lemma DispatchResolves(s: Inbox, w: nat, turn: string)
    requires IsDispatching(s, w) && turn in s.waiters && NothingFor(InFlight(s), turn)
    ensures turn in FinishStep(s, w).waiters && turn in CancelDispatchStep(s, w).waiters
  {
    DispatchedIsNotFor(s, w, turn);
    DeferredIsNotFor(s, turn);
    hide InFlight, NothingFor;
  }

  lemma ReclaimResolves(s: Inbox, call: nat, turn: string)
    requires call in s.reclaims && turn in s.waiters && NothingFor(InFlight(s), turn)
    ensures turn in CancelEndStep(s, call).waiters
  {
    if s.registered.Some? && IsWorker(s, s.registered.value) { QueuedIsNotFor(s, s.registered.value, turn); }
    DeferredIsNotFor(s, turn);
    hide InFlight, NothingFor;
  }

  lemma EnqueueLeavesWaiters(s: Inbox, m: Msg)
    ensures EnqueueStep(s, m).waiters == s.waiters
  {
  }

  lemma QueuedIsNotFor(s: Inbox, w: nat, turn: string)
    requires IsWorker(s, w) && NothingFor(InFlight(s), turn)
    ensures forall m :: m in s.workers[w].queue ==> m.turn != Some(turn)
  {
    hide Sum;
    forall m | m in s.workers[w].queue ensures m.turn != Some(turn) {
      QueueIsContent(s.workers[w], m);
      ContentInFlight(s.workers, w, m);
      assert m in InFlight(s);
    }
  }

  lemma DispatchedIsNotFor(s: Inbox, w: nat, turn: string)
    requires IsDispatching(s, w) && NothingFor(InFlight(s), turn)
    ensures forall m :: m in [s.workers[w].phase.msg] + Held(s.workers[w]) + s.workers[w].queue ==> m.turn != Some(turn)
  {
    hide Sum;
    forall m | m in [s.workers[w].phase.msg] + Held(s.workers[w]) + s.workers[w].queue ensures m.turn != Some(turn) {
      assert m in Content(s.workers[w]);
      ContentInFlight(s.workers, w, m);
      assert m in InFlight(s);
    }
  }

  lemma DeferredIsNotFor(s: Inbox, turn: string)
    requires NothingFor(InFlight(s), turn)
    ensures forall m :: m in s.deferred ==> m.turn != Some(turn)
  {
    forall m | m in s.deferred ensures m.turn != Some(turn) {
      assert m in multiset(s.deferred);
      assert m in InFlight(s);
    }
  }

  /** Nothing new with the turn's id comes in. */
  lemma NothingAdmittedFor(s: Inbox, a: Action, turn: string, m: Msg)
    requires Enabled(s, a) && turn in s.waiters && NothingFor(InFlight(s), turn) && !Interferes(a, turn)
    requires m.turn == Some(turn)
    ensures Step(s, a).logs.admitted[m] == s.logs.admitted[m]
  {
    hide InjectablePrefix, InFlight, NothingFor, EnqueueStep, FinishStep, CancelDispatchStep, CancelEndStep, TakeStep,
         DrainStartStep, DrainEndStep, StopPopStep, Turns;
    match a
    case Submit(e) => EnqueueAdmits(s.(waiters := s.waiters + Turns([e])), e);
    case Enqueue(e) => EnqueueAdmits(s, e);
    case Continue(w, id) => DispatchedIsNotFor(s, w, turn);
    case _ => OthersAdmitNothing(s, a);
  }

  lemma EnqueueAdmits(s: Inbox, m: Msg)
    ensures EnqueueStep(s, m).logs.admitted == s.logs.admitted + multiset{m}
  {
  }

  lemma OthersAdmitNothing(s: Inbox, a: Action)
    requires Enabled(s, a) && !a.Submit? && !a.Enqueue? && !a.Continue?
    ensures Step(s, a).logs.admitted == s.logs.admitted
  {
    hide InjectablePrefix, Turns;
  }

  lemma LostWaiterStaysLost(s: Inbox, a: Action, turn: string)
    requires Enabled(s, a) && Exclusive(s) && turn in s.waiters && NothingFor(InFlight(s), turn)
    requires !Interferes(a, turn)
    ensures turn in Step(s, a).waiters && NothingFor(InFlight(Step(s, a)), turn)
  {
    hide Enabled, Step, Exclusive, InFlight;
    ResolvedByMessage(s, a, turn);
    forall m: Msg | m.turn == Some(turn) ensures m !in InFlight(Step(s, a)) {
      NothingAdmittedFor(s, a, turn, m);
      StepBalances(s, a, m);
      StepEndsOnly(s, a, m);
      assert InFlight(s)[m] == 0;
    }
  }

  /** A waiter without a message in flight is never resolved, whatever happens, unless its submitter gives up. */
  lemma {:induction false} LostForever(s: Inbox, actions: seq<Action>, turn: string)
    requires Reachable(s) && turn in s.waiters && NothingFor(InFlight(s), turn)
    requires Run(s, actions).Some? && forall a :: a in actions ==> !Interferes(a, turn)
    ensures turn in Run(s, actions).value.waiters && NothingFor(InFlight(Run(s, actions).value), turn)
  {
    hide InboxOk, Enabled, Step, InFlight, Reachable, Interferes;
    if actions != [] {
      var k := |actions| - 1;
      LostForever(s, actions[..k], turn);
      var before := Run(s, actions[..k]).value;
      ReachableIsOk(s);
      RunKeepsInbox(s, actions[..k]);
      OkParts(before);
      LostWaiterStaysLost(before, actions[k], turn);
    }
  }

  lemma OkParts(s: Inbox)
    requires InboxOk(s)
    ensures Exclusive(s)
  {
  }

  // ----- a worker's own cancel call ---------------------------------------------------------------------

  /** While a worker awaits its own cancel call, no other call has it among its tasks, and it makes no other. */
  lemma OwnCallIsUndisturbed(s: Inbox, c: nat, d: nat, w: nat)
    requires Reachable(s) && c in s.reclaims && s.reclaims[c].caller == FromWorker(w)
    ensures HasLock(s, w) && w !in s.active && !Cancelling(s, w)
    ensures d in s.reclaims && d != c ==> w !in s.reclaims[d].tasks && s.reclaims[d].caller != FromWorker(w)
  {
    hide Conserved, WaitersOk, AllInOrder;
    ReachableIsOk(s);
    CallerHasLock(s, c, w);
    CallerIsAlone(s, c, w);
  }

  lemma CallerHasLock(s: Inbox, c: nat, w: nat)
    requires Owned(s) && Exclusive(s) && c in s.reclaims && s.reclaims[c].caller == FromWorker(w)
    ensures HasLock(s, w)
  {
    assert MayCancel(c, s.reclaims[c].caller, s.lock, s.inline);
  }

  lemma CallerIsAlone(s: Inbox, c: nat, w: nat)
    requires Exclusive(s) && c in s.reclaims && s.reclaims[c].caller == FromWorker(w)
    ensures w !in s.active
    ensures forall d :: d in s.reclaims && d != c ==> w !in s.reclaims[d].tasks && s.reclaims[d].caller != FromWorker(w)
  {
    forall d | d in s.reclaims && d != c ensures w !in s.reclaims[d].tasks && s.reclaims[d].caller != FromWorker(w) {
      assert !Concerns(s.reclaims[d], s.reclaims[c].caller);
    }
  }
}
