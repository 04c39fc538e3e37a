/** Runs of a session's inbox in which a second worker lives, a turn is lost, and a continuation is stranded. */
module InboxCases {
  import opened Wrappers
  import opened InboxModel
  import opened InboxProofs
  import opened InboxTheorems
  import opened InboxStop

  // ----- where two workers can live at once -------------------------------------------------------

  lemma {:induction false} RunOn(s: Inbox, actions: seq<Action>, a: Action)
    requires Run(s, actions).Some? && Enabled(Run(s, actions).value, a)
    ensures Run(s, actions + [a]) == Some(Step(Run(s, actions).value, a))
  {
    assert (actions + [a])[..|actions|] == actions;
  }

  /** The first steps of a session whose first message is a command. */
  lemma CommandRuns(command: Msg)
    requires !command.defers && command.kind == Command
    ensures var run := [Enqueue(command), Begin(0), Take(0)];
            && Run(IDLE, run).Some?
            && var s := Run(IDLE, run).value;
               && s.registered == Some(0) && s.active == {0} && s.reclaims == map[] && s.orphaned == {}
               && s.lock == None && s.inline == None
               && |s.workers| == 1 && s.workers[0].phase == Dispatching(command, None)
  {
    hide InjectablePrefix, Turns;
    assert Run(IDLE, []) == Some(IDLE);
    RunOn(IDLE, [], Enqueue(command));
    assert [] + [Enqueue(command)] == [Enqueue(command)];
    var s1 := EnqueueStep(IDLE, command);
    assert s1.workers == [Worker([command], Scheduled, [command], [], [])] && s1.registered == Some(0);
    RunOn(IDLE, [Enqueue(command)], Begin(0));
    var s2 := SetPhase(s1, 0, Top);
    assert s2.workers[0] == Worker([command], Top, [command], [], []);
    assert [Enqueue(command)] + [Begin(0)] == [Enqueue(command), Begin(0)];
    RunOn(IDLE, [Enqueue(command), Begin(0)], Take(0));
    assert [Enqueue(command), Begin(0)] + [Take(0)] == [Enqueue(command), Begin(0), Take(0)];
  }

  /** A cancel call from the session's own worker leaves that worker alive without a queue. */
  lemma OwnCancelGivesQueueAway(s: Inbox)
    requires s.registered == Some(0) && s.active == {0} && s.reclaims == map[] && s.orphaned == {}
    requires s.lock == None && s.inline == None
    requires |s.workers| == 1 && s.workers[0].phase.Dispatching? && s.workers[0].phase.msg.kind == Command
    ensures Enabled(s, Lock(0))
    ensures var s0 := Step(s, Lock(0));
            && Enabled(s0, CancelBegin(0, FromWorker(0)))
            && var s1 := Step(s0, CancelBegin(0, FromWorker(0)));
            && Enabled(s1, CancelEnd(0))
            && var s2 := Step(s1, CancelEnd(0));
               s2.registered == None && |s2.workers| == 1 && Live(s2.workers, 0) && s2.inline == None
  {
    hide Turns, InjectablePrefix;
  }

  /**
   A command that cancels the session's work from the session's own worker gives the queue away and goes on; the next
   message then starts a second worker beside it.
   */
  lemma OwnCancelAdmitsASecondWorker()
    ensures exists s :: Reachable(s) && Live(s.workers, 0) && Live(s.workers, 1)
  {
    hide Run, Enabled, Step, EnqueueStep;
    var command, input := Msg(0, Command, None, false), Msg(1, Input, None, false);
    var run := [Enqueue(command), Begin(0), Take(0)];
    CommandRuns(command);
    var s := Run(IDLE, run).value;
    OwnCancelGivesQueueAway(s);
    RunOn(IDLE, run, Lock(0));
    RunOn(IDLE, run + [Lock(0)], CancelBegin(0, FromWorker(0)));
    RunOn(IDLE, run + [Lock(0)] + [CancelBegin(0, FromWorker(0))], CancelEnd(0));
    var s2 := Step(Step(Step(s, Lock(0)), CancelBegin(0, FromWorker(0))), CancelEnd(0));
    NextMessageStartsAWorker(s2, input);
    RunOn(IDLE, run + [Lock(0)] + [CancelBegin(0, FromWorker(0))] + [CancelEnd(0)], Enqueue(input));
    assert Reachable(Step(s2, Enqueue(input)));
  }

  lemma NextMessageStartsAWorker(s: Inbox, m: Msg)
    requires s.registered == None && |s.workers| == 1 && Live(s.workers, 0) && s.inline == None && m.kind == Input
    ensures Enabled(s, Enqueue(m))
    ensures Live(Step(s, Enqueue(m)).workers, 0) && Live(Step(s, Enqueue(m)).workers, 1)
  {
  }

  // ----- a turn that comes while a stop command ends ------------------------------------------------

  const TURN := Msg(1, Input, Some("t"), false)
  const REST := Msg(2, Continuation, Some("t"), false)

  const ADMITTED := EMPTY_LOGS.(admitted := multiset{TURN})

  /** The stop command has cancelled everything and has yet to pop the queue. */
  const STOPPING := IDLE.(inline := Some(Inline(true, 0, 0)))
  const SUBMITTED := STOPPING.(registered := Some(0), workers := [Worker([TURN], Scheduled, [TURN], [], [])],
                               active := {0}, logs := ADMITTED, waiters := {"t"})
  const STOPPED := SUBMITTED.(registered := None, workers := [Worker([], Scheduled, [TURN], [], [TURN])],
                              inline := None, orphaned := {0}, popped := true,
                              logs := ADMITTED.(dropped := multiset{TURN}))

  const STOP := [InlineBegin(0, true)] + [CancelEnd(0)] + [Submit(TURN)]

  lemma TurnIsSubmitted()
    ensures Run(IDLE, STOP) == Some(SUBMITTED)
  {
    assert Run(IDLE, []) == Some(IDLE) && [] + [InlineBegin(0, true)] == [InlineBegin(0, true)];
    StopBegins();
    SubmittedStarts();
    hide Enabled, Step;
    RunOn(IDLE, [], InlineBegin(0, true));
    RunOn(IDLE, [InlineBegin(0, true)], CancelEnd(0));
    RunOn(IDLE, [InlineBegin(0, true)] + [CancelEnd(0)], Submit(TURN));
  }

  lemma StopBegins()
    ensures Enabled(IDLE, InlineBegin(0, true))
    ensures var begun := Step(IDLE, InlineBegin(0, true));
            Enabled(begun, CancelEnd(0)) && Step(begun, CancelEnd(0)) == STOPPING
  {
    var begun := Step(IDLE, InlineBegin(0, true));
    assert begun.reclaims == map[0 := Reclaim(None, {}, FromBus)];
    assert begun.reclaims - {0} == map[];
  }

  lemma SubmittedStarts()
    ensures Enabled(STOPPING, Submit(TURN)) && Step(STOPPING, Submit(TURN)) == SUBMITTED
  {
    var s' := Step(STOPPING, Submit(TURN));
    assert s'.waiters == {"t"} by { assert Turns([TURN]) == {"t"}; }
    assert s'.logs.admitted == multiset{TURN} && s'.active == {0};
    assert s'.workers == SUBMITTED.workers;
  }

  /**
   A turn submitted between a stop command's cancel call and its end is popped with its queue: the waiter is unresolved,
   nothing for it is in flight, and whatever happens afterwards does not resolve it.
   */
  lemma StopLosesASubmittedTurn()
    ensures exists s :: Reachable(s) && "t" in s.waiters && TURN in s.logs.dropped && NothingFor(InFlight(s), "t")
    ensures exists s :: Reachable(s) && forall actions ::
              Run(s, actions).Some? && (forall a :: a in actions ==> !Interferes(a, "t")) ==>
                "t" in Run(s, actions).value.waiters
  {
    TurnIsSubmitted();
    TurnIsPopped();
    NothingIsInFlight();
    hide Run, Enabled, Step, InFlight, Interferes;
    RunOn(IDLE, STOP, InlineEnd);
    assert Reachable(STOPPED);
    forall actions | Run(STOPPED, actions).Some? && (forall a :: a in actions ==> !Interferes(a, "t"))
      ensures "t" in Run(STOPPED, actions).value.waiters
    {
      LostForever(STOPPED, actions, "t");
    }
  }

  lemma TurnIsPopped()
    ensures Enabled(SUBMITTED, InlineEnd) && Step(SUBMITTED, InlineEnd) == STOPPED
  {
    var s' := Step(SUBMITTED, InlineEnd);
    assert [] + [TURN] == [TURN];
    assert s'.workers == STOPPED.workers && s'.orphaned == {0};
    assert s'.logs.dropped == multiset{TURN} by { assert multiset([TURN]) == multiset{TURN}; }
  }

  lemma NothingIsInFlight()
    ensures InFlight(STOPPED) == multiset{}
  {
    assert STOPPED.workers[..0] == [];
    assert Sum(STOPPED.workers) == Sum(STOPPED.workers[..0]) + Content(STOPPED.workers[0]);
    assert Content(STOPPED.workers[0]) == multiset{};
  }

  // ----- a turn that goes on when its queue is popped -----------------------------------------------

  function TurnWorker(queue: seq<Msg>, phase: Phase, arrived: seq<Msg>): Worker {
    Worker(queue, phase, arrived, [TURN], [TURN])
  }

  const RUNNING := SUBMITTED.(workers := [TurnWorker([], Dispatching(TURN, None), [TURN])], lock := Some(Turn(0)))
  const ROBBED := RUNNING.(registered := None, inline := None, orphaned := {0}, popped := true)
  const CONTINUED := ROBBED.(workers := [TurnWorker([REST], Dispatching(TURN, None), [TURN, REST])],
                             logs := EMPTY_LOGS.(admitted := multiset{TURN, REST}))
  const ENDING := CONTINUED.(workers := [TurnWorker([REST], Top, [TURN, REST])], lock := None, waiters := {},
                             logs := CONTINUED.logs.(finished := multiset{TURN}))

  /** A turn whose queue a stop command popped while it ran puts its continuation there, and nobody takes it. */
  lemma StopStrandsAContinuation()
    ensures exists s :: Reachable(s) && s.waiters == {} && REST in s.logs.stranded && s.logs.dropped == multiset{}
  {
    TurnIsSubmitted();
    TurnIsRunning();
    RunningIsRobbed();
    TurnGoesOn();
    hide Run, Enabled, Step;
    RunOn(IDLE, STOP, Begin(0));
    RunOn(IDLE, STOP + [Begin(0)], Take(0));
    RunOn(IDLE, STOP + [Begin(0)] + [Take(0)], Lock(0));
    var run := STOP + [Begin(0)] + [Take(0)] + [Lock(0)];
    RunOn(IDLE, run, InlineEnd);
    RunOn(IDLE, run + [InlineEnd], Continue(0, 2));
    RunOn(IDLE, run + [InlineEnd] + [Continue(0, 2)], Finish(0));
    RunOn(IDLE, run + [InlineEnd] + [Continue(0, 2)] + [Finish(0)], Take(0));
    assert Reachable(Step(ENDING, Take(0)));
  }

  lemma TurnIsRunning()
    ensures Enabled(SUBMITTED, Begin(0))
    ensures var begun := Step(SUBMITTED, Begin(0));
            && Enabled(begun, Take(0))
            && var taken := Step(begun, Take(0)); Enabled(taken, Lock(0)) && Step(taken, Lock(0)) == RUNNING
  {
    var begun := Step(SUBMITTED, Begin(0));
    assert begun.workers[0] == Worker([TURN], Top, [TURN], [], []);
    assert [TURN][1..] == [] && [] + [TURN] == [TURN];
    assert Step(begun, Take(0)).workers[0] == RUNNING.workers[0];
  }

  lemma RunningIsRobbed()
    ensures Enabled(RUNNING, InlineEnd) && Step(RUNNING, InlineEnd) == ROBBED
  {
    var s' := Step(RUNNING, InlineEnd);
    assert [TURN] + [] == [TURN];
    assert s'.workers == ROBBED.workers && s'.orphaned == {0};
    assert s'.logs.dropped == multiset{};
  }

  lemma TurnGoesOn()
    ensures Enabled(ROBBED, Continue(0, 2)) && Step(ROBBED, Continue(0, 2)) == CONTINUED
    ensures Enabled(CONTINUED, Finish(0)) && Step(CONTINUED, Finish(0)) == ENDING
    ensures Enabled(ENDING, Take(0))
    ensures var last := Step(ENDING, Take(0));
            last.waiters == {} && REST in last.logs.stranded && last.logs.dropped == multiset{}
  {
    var s1, s2 := Step(ROBBED, Continue(0, 2)), Step(CONTINUED, Finish(0));
    assert [] + [REST] == [REST] && [TURN] + [REST] == [TURN, REST];
    assert s1.workers == CONTINUED.workers && s1.logs.admitted == multiset{TURN, REST};
    assert s2.waiters == {} by { assert Turns([TURN]) == {"t"}; }
    assert s2.workers == ENDING.workers && s2.logs.finished == multiset{TURN};
    assert multiset([REST]) == multiset{REST};
  }
}
