/** Results of requests sent from a peer's own turn over runs, and a run in which work is executed. */
module PeerPublication {
  import opened Wrappers
  import opened Strings
  import opened PeerTypes
  import opened PeerStore
  import opened PeerNode
  import opened PeerNodeProofs
  import opened PeerSystem
  import opened PeerTheorems

  // ----- results that are stored and never leave ---------------------------------------

  /** Nobody was told of the result `rid`: neither the requester's channel nor the peer that sent it. */
  ghost predicate Unheard(s: System, a: PeerId, rid: Id) {
    && a in s.nodes
    && (rid in s.nodes[a].db.results ==> !s.nodes[a].db.results[rid].published)
    && (s.nodes[a].process.Up? ==> rid !in s.nodes[a].process.announced)
    && NeverAnnounced(s.nodes[a].log, rid)
    && NoReceipt(s.acks, a, rid)
    && forall b :: b in s.nodes ==> StillUnacked(s.nodes[b].db.outbox, a, rid)
  }

  ghost predicate NeverAnnounced(log: seq<Event>, rid: Id) {
    forall i :: 0 <= i < |log| ==> !(log[i].Announced? && log[i].result == rid)
  }

  ghost predicate NoReceipt(acks: set<PeerSystem.Ack>, a: PeerId, rid: Id) {
    forall k :: k in acks ==> !(k.receiver == a && k.kind == Reply && k.id == rid)
  }

  /** The row is not acknowledged, if it is a reply on its way to `a`. */
  predicate StillUnacked(outbox: map<Id, OutRow>, a: PeerId, rid: Id) {
    rid in outbox && outbox[rid].letter.kind == Reply && outbox[rid].letter.peer == a ==> outbox[rid].state != Acked
  }

  /** The request was sent from a peer's own turn, and the result, if stored, answers it. */
  predicate FromPeerTurn(db: Db, q: Id, rid: Id) {
    && q in db.outbox && db.outbox[q].letter.returnChannel == Some("peer")
    && (rid in db.results ==> db.results[rid].answer.request == q)
  }

  /** Such a result never has a publication to make. */
  lemma NothingToSend(db: Db, q: Id, rid: Id)
    requires FromPeerTurn(db, q, rid)
    ensures !PublicationOf(db, rid).Send?
    ensures rid in db.results && !db.results[rid].published ==> PublicationOf(db, rid) == MissingColumn
  {
  }

  /** A step of the instance that holds the result leaves it unheard. */
  lemma OwnStepIsSilent(n: Node, digest: Digest, a: Action, m: Node, q: Id, rid: Id)
    requires Step(n, digest, a, m) && FromPeerTurn(n.db, q, rid) && NeverAnnounced(n.log, rid)
    requires rid in n.db.results ==> !n.db.results[rid].published
    requires n.process.Up? ==> rid !in n.process.announced
    ensures rid in m.db.results ==> !m.db.results[rid].published
    ensures m.process.Up? ==> rid !in m.process.announced
    ensures NeverAnnounced(m.log, rid)
  {
    NothingToSend(n.db, q, rid);
    hide Complete, PublicationOf, MarkRetry, MarkAcked, MarkFailed, Enqueue, IsPendingBatch, IsPendingInbox,
         FromPeerTurn;
    hide ReplyText;
    match a
    case Recover(now) =>
      var (id, _) := n.process.snapshot[n.process.next];
      CompleteAddsOnly(n.db, n.process.peers, digest, id, INTERRUPTED, now);
    case CompleteWork(id, content, now) => CompleteAddsOnly(n.db, n.process.peers, digest, id, content, now);
    case Submit(id, peer, content, replyTo, hops, channel, chat, session, now) =>
      EnqueueLeavesResults(n.db, n.process.peers, id, now, peer, content, replyTo, hops, channel, chat, session);
    case HeadAcked => SettlingLeavesResults(n, a, m);
    case HeadRetried(_, _) => SettlingLeavesResults(n, a, m);
    case HeadUnpaired => SettlingLeavesResults(n, a, m);
    case _ =>
  }

  lemma EnqueueLeavesResults(db: Db, peers: Peers, id: Id, now: int, peer: PeerId, content: string, replyTo: Option<Id>,
                             hops: int, channel: Option<string>, chat: Option<string>, session: Option<string>)
    ensures var e := Enqueue(db, peers, id, now, peer, content, replyTo, hops, channel, chat, session);
            e.Success? ==> e.value.results == db.results
  {
  }

  lemma SettlingLeavesResults(n: Node, a: Action, m: Node)
    requires SettlesHead(n, a, m)
    ensures m.db.results == n.db.results && m.log == n.log
  {
    hide RetryDelay;
  }

  /** Only an acknowledgement that is there acknowledges a row. */
  lemma RowsStayUnacked(n: Node, digest: Digest, act: Action, m: Node, a: PeerId, rid: Id)
    requires Step(n, digest, act, m) && StillUnacked(n.db.outbox, a, rid) && Advances(n, m)
    requires act.HeadAcked? && n.process.Up? && n.process.batch != [] && n.process.batch[0].0 == rid ==>
               !(rid in n.db.outbox && n.db.outbox[rid].letter.kind == Reply && n.db.outbox[rid].letter.peer == a)
    ensures StillUnacked(m.db.outbox, a, rid)
  {
    if act.HeadAcked? { AckAddsNothing(n, m); }
    hide Step;
    StepAddsOnly(n, digest, act, m);
    AckedOnly(n, act, m, rid);
  }

  lemma AckAddsNothing(n: Node, m: Node)
    requires SettlesHead(n, HeadAcked, m)
    ensures m.db.outbox.Keys == n.db.outbox.Keys
  {
  }

  lemma AckedOnly(n: Node, act: Action, m: Node, rid: Id)
    requires AddsOnly(n, act, m)
    ensures Acknowledged(m.db.outbox, rid) && !Acknowledged(n.db.outbox, rid) ==>
              act.HeadAcked? && n.process.Up? && n.process.batch != [] && n.process.batch[0].0 == rid
  {
  }

  /** The row an arriving acknowledgement settles is on its way to a modelled peer only if that peer released it. */
  lemma ArrivingAckIsReleased(s: System, mac: Mac, digest: Digest, b: PeerId, t: System, a: PeerId, rid: Id)
    requires b in s.nodes && s.nodes[b].process.Up? && s.nodes[b].process.batch != []
    requires Next(s, mac, digest, AckArrives(b), t) && SystemOk(s, digest) && a in s.nodes && NoReceipt(s.acks, a, rid)
    ensures var (id, row) := s.nodes[b].process.batch[0];
            id == rid ==>
              rid in s.nodes[b].db.outbox
              && !(s.nodes[b].db.outbox[rid].letter.kind == Reply && s.nodes[b].db.outbox[rid].letter.peer == a)
  {
    hide JobsOk, AnswersOk, AckedOk, AnnouncedOk, PacketsOk, AcksOk, TablesOk, StepAt;
    assert InstanceOk(s, digest, b);
    HeadLetter(s.nodes[b]);
  }

  /** A move of another instance, or one that is no step, leaves the instance's own part as it was. */
  lemma SilentMove(s: System, mac: Mac, digest: Digest, move: Move, t: System, a: PeerId, q: Id, rid: Id)
    requires Next(s, mac, digest, move, t) && SystemOk(s, digest) && Unheard(s, a, rid)
    requires FromPeerTurn(s.nodes[a].db, q, rid) && a in t.nodes && FromPeerTurn(t.nodes[a].db, q, rid)
    ensures Unheard(t, a, rid)
  {
    hide SystemOk, Step, FromPeerTurn, Admit, MayArrive, PublicationOf, NeverAnnounced, StillUnacked, SystemAdvances;
    NextKeeps(s, mac, digest, move, t);
    match move
    case Transmit(_) =>
    case Local(p, act) => StepIsSilent(s, digest, p, act, t, a, q, rid);
    case AckArrives(p) =>
      ArrivingAckIsReleased(s, mac, digest, p, t, a, rid);
      StepIsSilent(s, digest, p, HeadAcked, t, a, q, rid);
    case Receive(p, envelope, signature, now) =>
      match Admit(p, s.nodes[p].process.peers, mac, envelope, signature)
      case Failure(_) =>
      case Success(r) =>
        if r.WorkRequest? {
          StepIsSilent(s, digest, p, Store(r.id, r.sender, r.content, r.replyTo, r.hops, now), t, a, q, rid);
        } else {
          StepIsSilent(s, digest, p, AcceptResult(r.id, r.sender, r.request, r.content, now), t, a, q, rid);
          if p == a && r.id == rid { StoredIsStuck(s, digest, r, now, t, a, q); }
        }
  }

  lemma StoredIsStuck(s: System, digest: Digest, r: Request, now: int, t: System, a: PeerId, q: Id)
    requires a in s.nodes && r.ResultRequest? && ReceivesResult(s, digest, a, r, now, t)
    requires FromPeerTurn(t.nodes[a].db, q, r.id)
    requires r.id in s.nodes[a].db.results ==> !s.nodes[a].db.results[r.id].published
    ensures t.acks == s.acks
  {
    NothingToSend(t.nodes[a].db, q, r.id);
  }

  lemma StepIsSilent(s: System, digest: Digest, p: PeerId, act: Action, t: System, a: PeerId, q: Id, rid: Id)
    requires StepAt(s, digest, p, act, t) && SystemAdvances(s, t) && Unheard(s, a, rid)
    requires FromPeerTurn(s.nodes[a].db, q, rid) && a in t.nodes
    requires act.HeadAcked? && s.nodes[p].process.Up? && s.nodes[p].process.batch != []
             && s.nodes[p].process.batch[0].0 == rid ==>
               !(rid in s.nodes[p].db.outbox && s.nodes[p].db.outbox[rid].letter.kind == Reply
                 && s.nodes[p].db.outbox[rid].letter.peer == a)
    ensures t.acks == s.acks ==> Unheard(t, a, rid)
    ensures NoReceipt(t.acks, a, rid) ==> Unheard(t, a, rid)
  {
    hide Step, Advances, FromPeerTurn, NeverAnnounced, StillUnacked;
    assert Advances(s.nodes[p], t.nodes[p]);
    RowsStayUnacked(s.nodes[p], digest, act, t.nodes[p], a, rid);
    if p == a { OwnStepIsSilent(s.nodes[a], digest, act, t.nodes[a], q, rid); }
  }

  /** A result that is not stored was never announced, marked or acknowledged. */
  lemma UnstoredIsUnheard(s: System, digest: Digest, a: PeerId, rid: Id)
    requires SystemOk(s, digest) && a in s.nodes && rid !in s.nodes[a].db.results
    ensures Unheard(s, a, rid)
  {
    hide NodeOk, JobsOk, AnswersOk, PacketsOk;
    assert InstanceOk(s, digest, a);
    forall b | b in s.nodes ensures StillUnacked(s.nodes[b].db.outbox, a, rid) {
      assert InstanceOk(s, digest, b);
      assert Acknowledged(s.nodes[b].db.outbox, rid) <==>
               rid in s.nodes[b].db.outbox && s.nodes[b].db.outbox[rid].state == Acked;
    }
  }

  /** A request stays in the outbox and an answer keeps its request, so both can be read off at any time between. */
  lemma TurnBetween(run: seq<System>, moves: seq<Move>, mac: Mac, digest: Digest, i: nat, k: nat, j: nat,
                    a: PeerId, q: Id, rid: Id)
    requires IsRun(run, moves, mac, digest) && i <= k <= j < |run|
    requires a in run[i].nodes && FromPeerTurn(run[i].nodes[a].db, q, rid)
    requires a in run[j].nodes && FromPeerTurn(run[j].nodes[a].db, q, rid)
    ensures a in run[k].nodes && FromPeerTurn(run[k].nodes[a].db, q, rid)
  {
    hide Next;
    RunsOnlyClimb(run, moves, mac, digest, i, k);
    RunsOnlyClimb(run, moves, mac, digest, k, j);
    assert Advances(run[i].nodes[a], run[k].nodes[a]) && Advances(run[k].nodes[a], run[j].nodes[a]);
  }

  lemma {:induction false} UnheardLasts(run: seq<System>, moves: seq<Move>, mac: Mac, digest: Digest,
                                        i: nat, k: nat, j: nat, a: PeerId, q: Id, rid: Id)
    requires IsRun(run, moves, mac, digest) && i <= k <= j < |run| && Unheard(run[i], a, rid)
    requires a in run[i].nodes && FromPeerTurn(run[i].nodes[a].db, q, rid)
    requires a in run[j].nodes && FromPeerTurn(run[j].nodes[a].db, q, rid)
    ensures Unheard(run[k], a, rid)
    decreases k
  {
    hide Next, SystemOk, Unheard, FromPeerTurn;
    if i < k {
      UnheardLasts(run, moves, mac, digest, i, k - 1, j, a, q, rid);
      TurnBetween(run, moves, mac, digest, i, k - 1, j, a, q, rid);
      TurnBetween(run, moves, mac, digest, i, k, j, a, q, rid);
      RunIsOk(run, moves, mac, digest, k - 1);
      assert Next(run[k - 1], mac, digest, moves[k - 1], run[k]);
      SilentMove(run[k - 1], mac, digest, moves[k - 1], run[k], a, q, rid);
    }
  }

  /**
   The result of a request sent from a peer's own turn, stored after the request, is never published, announced or
   acknowledged over any run: no acknowledgement of it is ever released, and its modelled sender's row never becomes
   acknowledged, however often it is sent.
   */
  lemma PeerTurnResultsAreNeverAcknowledged(run: seq<System>, moves: seq<Move>, mac: Mac, digest: Digest,
                                            i: nat, j: nat, a: PeerId, q: Id, rid: Id)
    requires IsRun(run, moves, mac, digest) && i <= j < |run| && a in run[i].nodes && a in run[j].nodes
    requires q in run[i].nodes[a].db.outbox && run[i].nodes[a].db.outbox[q].letter.returnChannel == Some("peer")
    requires rid !in run[i].nodes[a].db.results
    requires rid in run[j].nodes[a].db.results && run[j].nodes[a].db.results[rid].answer.request == q
    ensures !run[j].nodes[a].db.results[rid].published && NeverAnnounced(run[j].nodes[a].log, rid)
    ensures forall sender :: Ack(a, sender, Reply, rid) !in run[j].acks
    ensures forall b :: b in run[j].nodes ==> StillUnacked(run[j].nodes[b].db.outbox, a, rid)
  {
    hide Next, SystemOk, NeverAnnounced, StillUnacked;
    RunIsOk(run, moves, mac, digest, i);
    UnstoredIsUnheard(run[i], digest, a, rid);
    RunsOnlyClimb(run, moves, mac, digest, i, j);
    assert Advances(run[i].nodes[a], run[j].nodes[a]);
    UnheardLasts(run, moves, mac, digest, i, j, j, a, q, rid);
  }

  // ----- a run --------------------------------------------------------------------------

  /** Work from an instance outside the model, as its letter. */
  const WORK := Letter("p", "hi", None, 1, Work, 0, None, None, None)
  const JOB := Job("q", "hi", None, 1, Work, 0)
  const PEERS: Peers := map["q" := "s"]

  function Running(handlers: set<Id>, published: seq<Id>): Process {
    Up(PEERS, [], 0, false, handlers, published, {}, [], {})
  }

  function OnlyNode(inbox: map<Id, InRow>, p: Process, acks: set<PeerSystem.Ack>): System {
    System(map["p" := Node(Db(map[], inbox, map[]), [], p)], {}, acks)
  }

  const START := OnlyNode(map[], Down, {})
  const BOOTED := OnlyNode(map[], Running({}, []), {})
  const STORED := OnlyNode(map["w" := InRow(JOB, Received, false)], Running({"w"}, []), {})
  const QUEUED := OnlyNode(map["w" := InRow(JOB, Queued, false)], Running({}, ["w"]), {Ack("p", "q", Work, "w")})

  function Arrival(mac: Mac): Move {
    var data := EnvelopeOf("q", "w", WORK);
    Receive("p", Some(data), Str(mac("s", data)), 0)
  }

  lemma WorkIsAdmitted(mac: Mac)
    ensures var data := EnvelopeOf("q", "w", WORK);
            Admit("p", PEERS, mac, Some(data), Str(mac("s", data))) == Success(WorkRequest("w", "q", "hi", None, 1))
  {
    TextWithFirstCharIsNotBlank("hi");
    ReceiverReadsTheSentLetter("q", "w", WORK, "s", PEERS, mac);
  }

  lemma BootMove(mac: Mac, digest: Digest)
    ensures Next(START, mac, digest, Local("p", Boot(PEERS, [])), BOOTED)
  {
    var n, m := START.nodes["p"], BOOTED.nodes["p"];
    assert Upgrade(n.db) == n.db;
    assert IsPendingInbox(n.db, []);
    assert Step(n, digest, Boot(PEERS, []), m);
    hide Step;
    assert BOOTED.nodes == START.nodes["p" := m];
  }

  lemma ArrivalMove(mac: Mac, digest: Digest)
    ensures Next(BOOTED, mac, digest, Arrival(mac), STORED)
  {
    WorkIsAdmitted(mac);
    EnvelopeFields("q", "w", WORK);
    hide Admit, EnvelopeOf, Field;
    var n, m := BOOTED.nodes["p"], STORED.nodes["p"];
    assert m.process == n.process.(handlers := n.process.handlers + {"w"});
    assert Step(n, digest, Store("w", "q", "hi", None, 1, 0), m);
    hide Step;
    assert STORED.nodes == BOOTED.nodes["p" := m];
  }

  lemma PublishMove(mac: Mac, digest: Digest)
    ensures Next(STORED, mac, digest, Local("p", PublishStored("w")), QUEUED)
  {
    var n, m := STORED.nodes["p"], QUEUED.nodes["p"];
    assert m.db.inbox == n.db.inbox["w" := n.db.inbox["w"].(state := Queued)];
    assert m.process.handlers == n.process.handlers - {"w"} && m.process.published == n.process.published + ["w"];
    assert Step(n, digest, PublishStored("w"), m);
    hide Step;
    assert QUEUED.nodes == STORED.nodes["p" := m];
    assert QUEUED.acks == STORED.acks + Released(n, "p", PublishStored("w"));
  }

  lemma ThreeMoves(s0: System, m0: Move, s1: System, m1: Move, s2: System, m2: Move, s3: System, mac: Mac,
                   digest: Digest)
    requires Init(s0) && Next(s0, mac, digest, m0, s1) && Next(s1, mac, digest, m1, s2) && Next(s2, mac, digest, m2, s3)
    ensures IsRun([s0, s1, s2, s3], [m0, m1, m2], mac, digest)
  {
    hide Next, Init;
  }

  /** The hypotheses of the run theorems are met by a run after which work that arrived and was published begins. */
  lemma SomeRunExecutes(mac: Mac, digest: Digest)
    ensures exists run, moves :: IsRun(run, moves, mac, digest) && |run| == 4
                                 && StartsExecution(run[3], Local("p", BeginWork("w")), "p", "w")
  {
    BootMove(mac, digest);
    ArrivalMove(mac, digest);
    PublishMove(mac, digest);
    hide Next;
    assert StartsExecution(QUEUED, Local("p", BeginWork("w")), "p", "w");
    assert Init(START);
    hide QUEUED, START, BOOTED, STORED, StartsExecution;
    ThreeMoves(START, Local("p", Boot(PEERS, [])), BOOTED, Arrival(mac), STORED, Local("p", PublishStored("w")), QUEUED,
               mac, digest);
    var run := [START, BOOTED, STORED, QUEUED];
    assert run[3] == QUEUED;
  }
}
