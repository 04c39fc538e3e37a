/**
 The inbox of one session: its queue, the worker serving it, messages deferred until the session is idle, the lock under
 which turns run, and calls that cancel the session's work. Each action is what runs between two suspension points of
 the event loop; a cancelled worker's cleanup is one action.
 */
module InboxModel {
  import opened Wrappers

  datatype Kind = Input | Command | Continuation

  /** `turn` is the automation turn a coordinator waits for; `defers` says that the turn wants an idle session. */
  datatype Msg = Msg(id: nat, kind: Kind, turn: Option<string>, defers: bool)

  /** `held` is the snapshot a drain is converting. */
  datatype Phase = Scheduled | Top | Dispatching(msg: Msg, held: Option<seq<Msg>>) | Exited

  /**
   A queue and the one worker started for it. What has arrived in the queue and what has left it are recorded: `served`
   messages were dispatched or injected, and `left` are these and the ones that were cancelled or lost.
   */
  datatype Worker = Worker(queue: seq<Msg>, phase: Phase, arrived: seq<Msg>, served: seq<Msg>, left: seq<Msg>)

  /** Who cancels the session's work: the loop over the bus, a direct call of the agent, or a worker's own command. */
  datatype Caller = FromBus | FromOutside | FromWorker(w: nat)

  /** A running `_cancel_active_tasks`: the queue and tasks it saw. */
  datatype Reclaim = Reclaim(pending: Option<nat>, tasks: set<nat>, caller: Caller)

  /** Who runs a turn of the session: a worker, or a direct call, which has no queue. */
  datatype Holder = Turn(w: nat) | Outside

  /**
   A command the loop over the bus runs itself, and awaits before it reads on. All begin with a cancel call; the stop
   command ends by popping the queue. There were `first` workers when it began.
   */
  datatype Inline = Inline(stop: bool, call: nat, first: nat)

  /**
   Where messages have gone. `cancelled` ones were completed with an error. Two kinds were not completed at all: a stop
   command took `dropped` ones from a queue, and a worker left `stranded` ones in its queue when it ended.
   Of the turns that were ever deferred, `postponed` ones, `resumed` ones have left the deferred list again.
   */
  datatype Logs = Logs(admitted: multiset<Msg>, finished: multiset<Msg>, injected: multiset<Msg>,
                       cancelled: multiset<Msg>, dropped: multiset<Msg>, stranded: multiset<Msg>,
                       postponed: seq<Msg>, resumed: seq<Msg>)

  /**
   Workers are numbered in the order they are created. `orphaned` ones lost their queue while alive; `popped` tells that
   a stop command has removed the queue and that no message has started a new one since.
   */
  datatype Inbox = Inbox(
    registered: Option<nat>, workers: seq<Worker>, active: set<nat>, deferred: seq<Msg>,
    reclaims: map<nat, Reclaim>, lock: Option<Holder>, inline: Option<Inline>, orphaned: set<nat>, popped: bool,
    logs: Logs, waiters: set<string>)

  const EMPTY_LOGS := Logs(multiset{}, multiset{}, multiset{}, multiset{}, multiset{}, multiset{}, [], [])
  const IDLE := Inbox(None, [], {}, [], map[], None, None, {}, false, EMPTY_LOGS, {})

  predicate Injectable(m: Msg) {
    m.kind == Input && m.turn.None?
  }

  /** How many messages of a snapshot a drain converts: up to the first that has to be a turn of its own. */
  function InjectablePrefix(ms: seq<Msg>): (n: nat)
    ensures n <= |ms| && (forall i :: 0 <= i < n ==> Injectable(ms[i])) && (n < |ms| ==> !Injectable(ms[n]))
  {
    if ms == [] || !Injectable(ms[0]) then 0 else 1 + InjectablePrefix(ms[1..])
  }

  function Turns(ms: seq<Msg>): set<string> {
    set m | m in ms && m.turn.Some? :: m.turn.value
  }

  predicate IsWorker(s: Inbox, w: nat) {
    w < |s.workers|
  }

  predicate Live(workers: seq<Worker>, w: nat) {
    w < |workers| && workers[w].phase != Exited
  }

  predicate IsDispatching(s: Inbox, w: nat) {
    IsWorker(s, w) && s.workers[w].phase.Dispatching?
  }

  // ----- the actions ---------------------------------------------------------------------

  datatype Action =
    | Enqueue(msg: Msg)
    | Submit(msg: Msg)
    | Abandon(turn: string)
    | Begin(w: nat)
    | Take(w: nat)
    | Lock(w: nat)
    | DrainStart(w: nat)
    | DrainEnd(w: nat, count: nat)
    | Continue(w: nat, id: nat)
    | Finish(w: nat)
    | CancelDispatch(w: nat)
    | CancelScheduled(w: nat)
    | Untrack(w: nat)
    | OutsideLock
    | OutsideUnlock
    | CancelBegin(call: nat, caller: Caller)
    | InlineBegin(call: nat, stop: bool)
    | CancelEnd(call: nat)
    | InlineEnd

  /** `_enqueue_session_message`. */
  function EnqueueStep(s: Inbox, m: Msg): Inbox {
    var s := s.(logs := s.logs.(admitted := s.logs.admitted + multiset{m}));
    if m.defers && s.registered.Some? then
      s.(deferred := s.deferred + [m], logs := s.logs.(postponed := s.logs.postponed + [m]))
    else if s.registered.Some? && IsWorker(s, s.registered.value) then
      var q := s.registered.value;
      var worker := s.workers[q];
      s.(workers := s.workers[q := worker.(queue := worker.queue + [m], arrived := worker.arrived + [m])])
    else
      var w := |s.workers|;
      s.(workers := s.workers + [Worker([m], Scheduled, [m], [], [])], registered := Some(w),
         active := s.active + {w}, popped := false)
  }

  function SetPhase(s: Inbox, w: nat, phase: Phase): Inbox
    requires IsWorker(s, w)
  {
    s.(workers := s.workers[w := s.workers[w].(phase := phase)])
  }

  /** All messages leave the queue unserved. */
  function Emptied(worker: Worker): Worker {
    worker.(queue := [], left := worker.left + worker.queue)
  }

  /** The head of the worker's loop: the next message, then deferred ones, then the end. */
  function TakeStep(s: Inbox, w: nat): Inbox
    requires IsWorker(s, w)
  {
    var worker := s.workers[w];
    if s.registered != Some(w) then
      s.(workers := s.workers[w := Emptied(worker).(phase := Exited)],
         logs := s.logs.(stranded := s.logs.stranded + multiset(worker.queue)))
    else if worker.queue != [] then
      var m := worker.queue[0];
      s.(workers := s.workers[w := worker.(queue := worker.queue[1..], phase := Dispatching(m, None),
                                           served := worker.served + [m], left := worker.left + [m])])
    else if s.deferred != [] then
      SetPhase(s, w, Dispatching(s.deferred[0], None)).(
        deferred := s.deferred[1..], logs := s.logs.(resumed := s.logs.resumed + [s.deferred[0]]))
    else SetPhase(s, w, Exited).(registered := None)
  }

  function DrainStartStep(s: Inbox, w: nat): Inbox
    requires IsDispatching(s, w)
  {
    var worker := s.workers[w];
    s.(workers := s.workers[w := worker.(queue := [], phase := worker.phase.(held := Some(worker.queue)))])
  }

  function Held(worker: Worker): seq<Msg> {
    if worker.phase.Dispatching? && worker.phase.held.Some? then worker.phase.held.value else []
  }

  function DrainEndStep(s: Inbox, w: nat, count: nat): Inbox
    requires IsDispatching(s, w) && count <= |Held(s.workers[w])|
  {
    var worker := s.workers[w];
    var held := Held(worker);
    s.(workers := s.workers[w := worker.(queue := held[count..] + worker.queue, phase := worker.phase.(held := None),
                                         served := worker.served + held[..count],
                                         left := worker.left + held[..count])],
       logs := s.logs.(injected := s.logs.injected + multiset(held[..count])))
  }

  /** `maybe_continue_turn`: a turn that used up its budget puts its continuation into the queue it was taken from. */
  function ContinueStep(s: Inbox, w: nat, id: nat): Inbox
    requires IsDispatching(s, w)
  {
    var worker := s.workers[w];
    var m := worker.phase.msg.(id := id, kind := Continuation);
    s.(workers := s.workers[w := worker.(queue := worker.queue + [m], arrived := worker.arrived + [m])],
       logs := s.logs.(admitted := s.logs.admitted + multiset{m}))
  }

  function Unlocked(lock: Option<Holder>, w: nat): Option<Holder> {
    if lock == Some(Turn(w)) then None else lock
  }

  function FinishStep(s: Inbox, w: nat): Inbox
    requires IsDispatching(s, w)
  {
    var m := s.workers[w].phase.msg;
    SetPhase(s, w, Top).(lock := Unlocked(s.lock, w), logs := s.logs.(finished := s.logs.finished + multiset{m}),
                         waiters := s.waiters - Turns([m]))
  }

  /** `_cancel_pending_messages` for worker `w`: what is in its queue, then the deferred turns, end with an error. */
  function CancelPending(s: Inbox, w: nat): Inbox
    requires IsWorker(s, w)
  {
    var worker := s.workers[w];
    s.(workers := s.workers[w := Emptied(worker)],
       deferred := [],
       logs := s.logs.(cancelled := s.logs.cancelled + multiset(worker.queue) + multiset(s.deferred),
                       resumed := s.logs.resumed + s.deferred),
       waiters := s.waiters - Turns(worker.queue) - Turns(s.deferred))
  }

  /** A turn is cancelled: the drain gives its snapshot back, and the message ends with an error. */
  function CancelTurnStep(s: Inbox, w: nat): (s': Inbox)
    requires IsDispatching(s, w)
    ensures IsWorker(s', w)
  {
    var worker := s.workers[w];
    var m := worker.phase.msg;
    s.(workers := s.workers[w := worker.(queue := Held(worker) + worker.queue, phase := Exited)],
       lock := Unlocked(s.lock, w),
       logs := s.logs.(cancelled := s.logs.cancelled + multiset{m}),
       waiters := s.waiters - Turns([m]))
  }

  /** Then its worker ends the whole inbox with the error, and removes the queue if it is still this worker's. */
  function CancelDispatchStep(s: Inbox, w: nat): Inbox
    requires IsDispatching(s, w)
  {
    CancelPending(CancelTurnStep(s, w), w).(registered := if s.registered == Some(w) then None else s.registered)
  }

  function CancelBeginStep(s: Inbox, call: nat, caller: Caller): Inbox {
    s.(reclaims := s.reclaims[call := Reclaim(s.registered, s.active, caller)], active := {})
  }

  /** The loop over the bus begins a command of its own with a cancel call. */
  function InlineBeginStep(s: Inbox, call: nat, stop: bool): Inbox {
    CancelBeginStep(s, call, FromBus).(inline := Some(Inline(stop, call, |s.workers|)))
  }

  /** Once all cancelled tasks are awaited, the inbox seen at the start is reclaimed if it is still the session's. */
  function CancelEndStep(s: Inbox, call: nat): Inbox
    requires call in s.reclaims
  {
    var r := s.reclaims[call];
    var s' := s.(reclaims := s.reclaims - {call});
    if r.tasks != {} && r.pending.Some? && s.registered == r.pending && IsWorker(s, r.pending.value) then
      var q := r.pending.value;
      CancelPending(s', q).(registered := None, orphaned := s.orphaned + if Live(s.workers, q) then {q} else {})
    else s'
  }

  /** The end of the stop command removes whatever queue the session has by then and discards its messages. */
  function StopPopStep(s: Inbox): Inbox {
    if s.registered.Some? && IsWorker(s, s.registered.value) then
      var q := s.registered.value;
      var worker := s.workers[q];
      s.(registered := None, popped := true,
         workers := s.workers[q := Emptied(worker)],
         logs := s.logs.(dropped := s.logs.dropped + multiset(worker.queue)),
         orphaned := s.orphaned + if Live(s.workers, q) then {q} else {})
    else s
  }

  function InlineEndStep(s: Inbox): Inbox
    requires s.inline.Some?
  {
    (if s.inline.value.stop then StopPopStep(s) else s).(inline := None)
  }

  /** A cancel call that another one makes has the worker among its tasks. */
  predicate Cancelling(s: Inbox, w: nat) {
    exists c :: c in s.reclaims && w in s.reclaims[c].tasks && s.reclaims[c].caller != FromWorker(w)
  }

  /** The worker is inside its own cancel call, awaiting the cancelled tasks. */
  predicate Calling(s: Inbox, w: nat) {
    exists c :: c in s.reclaims && s.reclaims[c].caller == FromWorker(w)
  }

  predicate HasLock(s: Inbox, w: nat) {
    IsDispatching(s, w) && s.lock == Some(Turn(w))
  }

  predicate Enabled(s: Inbox, a: Action) {
    match a
    // Messages come from the bus, which is not read while an inline command runs, or from a coordinator.
    case Enqueue(m) => s.inline.None? && m.kind != Continuation
    case Submit(m) => m.turn.Some? && m.turn.value !in s.waiters && m.kind != Continuation
    case Abandon(_) => true
    case Begin(w) => IsWorker(s, w) && s.workers[w].phase == Scheduled
    case Take(w) => IsWorker(s, w) && s.workers[w].phase == Top
    case Lock(w) => IsDispatching(s, w) && s.lock.None?
    // A drain suspends only when it converts a message. With another one in front, it puts all back before anyone sees.
    case DrainStart(w) =>
      && HasLock(s, w) && s.workers[w].phase.held.None? && s.workers[w].phase.msg.kind != Command
      && s.workers[w].queue != [] && Injectable(s.workers[w].queue[0])
    // A drain converts what it can, or fails and converts nothing.
    case DrainEnd(w, count) =>
      && IsDispatching(s, w) && s.workers[w].phase.held.Some?
      && (count == 0 || count == InjectablePrefix(Held(s.workers[w])))
    // Commands do not run the model, so nothing is injected into them and they are not continued.
    case Continue(w, _) => HasLock(s, w) && s.workers[w].phase.held.None? && s.workers[w].phase.msg.kind != Command
    case Finish(w) => IsDispatching(s, w) && s.workers[w].phase.held.None? && !Calling(s, w)
    case CancelDispatch(w) => IsDispatching(s, w) && !Calling(s, w)
    case CancelScheduled(w) => IsWorker(s, w) && s.workers[w].phase == Scheduled && Cancelling(s, w)
    case Untrack(w) => IsWorker(s, w) && s.workers[w].phase == Exited
    case OutsideLock => s.lock.None?
    case OutsideUnlock =>
      s.lock == Some(Outside) && forall c :: c in s.reclaims ==> s.reclaims[c].caller != FromOutside
    // A command may cancel the session's work from inside the session's own worker, unless it is cancelled itself.
    case CancelBegin(call, caller) =>
      && call !in s.reclaims && (s.inline.Some? ==> call != s.inline.value.call)
      && (match caller
          case FromBus => false
          case FromOutside => s.lock == Some(Outside)
          case FromWorker(w) =>
            HasLock(s, w) && s.workers[w].phase.msg.kind == Command && !Cancelling(s, w) && !Calling(s, w))
    case InlineBegin(call, _) => s.inline.None? && call !in s.reclaims
    case CancelEnd(call) =>
      && call in s.reclaims
      && forall t :: t in s.reclaims[call].tasks ==> s.reclaims[call].caller == FromWorker(t) || !Live(s.workers, t)
    case InlineEnd => s.inline.Some? && s.inline.value.call !in s.reclaims
  }

  function Step(s: Inbox, a: Action): Inbox
    requires Enabled(s, a)
  {
    match a
    case Enqueue(m) => EnqueueStep(s, m)
    case Submit(m) => EnqueueStep(s.(waiters := s.waiters + Turns([m])), m)
    case Abandon(turn) => s.(waiters := s.waiters - {turn})
    case Begin(w) => SetPhase(s, w, Top)
    case Take(w) => TakeStep(s, w)
    case Lock(w) => s.(lock := Some(Turn(w)))
    case DrainStart(w) => DrainStartStep(s, w)
    case DrainEnd(w, count) => DrainEndStep(s, w, count)
    case Continue(w, id) => ContinueStep(s, w, id)
    case Finish(w) => FinishStep(s, w)
    case CancelDispatch(w) => CancelDispatchStep(s, w)
    case CancelScheduled(w) => SetPhase(s, w, Exited)
    case Untrack(w) => s.(active := s.active - {w})
    case OutsideLock => s.(lock := Some(Outside))
    case OutsideUnlock => s.(lock := None)
    case CancelBegin(call, caller) => CancelBeginStep(s, call, caller)
    case InlineBegin(call, stop) => InlineBeginStep(s, call, stop)
    case CancelEnd(call) => CancelEndStep(s, call)
    case InlineEnd => InlineEndStep(s)
  }

  /** The inbox after the actions, `None` if one of them is not possible where it stands. */
  function Run(s: Inbox, actions: seq<Action>): Option<Inbox> {
    if actions == [] then Some(s)
    else
      var k := |actions| - 1;
      var before := Run(s, actions[..k]);
      if before.Some? && Enabled(before.value, actions[k]) then Some(Step(before.value, actions[k])) else None
  }
}
