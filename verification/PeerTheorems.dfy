/** What holds over every run of the protocol. */
module PeerTheorems {
  import opened Wrappers
  import opened PeerTypes
  import opened PeerStore
  import opened PeerNode
  import opened PeerNodeProofs
  import opened PeerSystem

  // ----- the invariant over runs --------------------------------------------------

  lemma LocalKeeps(s: System, digest: Digest, p: PeerId, a: Action, t: System)
    requires SystemOk(s, digest) && Internal(a) && StepAt(s, digest, p, a, t)
    requires t.net == s.net && t.acks == s.acks + Released(s.nodes[p], p, a)
    ensures SystemOk(t, digest) && SystemAdvances(s, t)
  {
    hide InstanceOk, Step, Advances, PacketsOk, AcksOk, Evolves;
    StepAtKeeps(s, digest, p, a, t);
    PacketsStay(s, t);
    AcksStay(s, t) by {
      if a.PublishStored? && a.id in s.nodes[p].db.inbox {
        assert Stored(s.nodes[p], Work, a.id);
        StoredStays(s.nodes[p], t.nodes[p], Work, a.id);
      }
    }
  }

  lemma TransmitKeeps(s: System, mac: Mac, digest: Digest, p: PeerId, t: System)
    requires SystemOk(s, digest) && Next(s, mac, digest, Transmit(p), t)
    ensures SystemOk(t, digest) && SystemAdvances(s, t)
  {
    hide InstanceOk, AcksOk, NodeOk;
    var (id, row) := s.nodes[p].process.batch[0];
    assert InstanceOk(s, digest, p);
    HeadIsKnown(s, digest, p);
    EnvelopeFields(p, id, row.letter);
    SameNodes(s, t, digest);
  }

  lemma HeadIsKnown(s: System, digest: Digest, p: PeerId)
    requires p in s.nodes && InstanceOk(s, digest, p) && s.nodes[p].process.Up? && s.nodes[p].process.batch != []
    ensures var (id, row) := s.nodes[p].process.batch[0]; Known(s, p, id) && LetterAt(s, p, id) == row.letter
  {
    hide JobsOk, AnswersOk, AckedOk, AnnouncedOk, TablesOk;
    HeadLetter(s.nodes[p]);
  }

  lemma SameNodes(s: System, t: System, digest: Digest)
    requires t.nodes == s.nodes
    ensures SystemAdvances(s, t)
    ensures forall p :: p in s.nodes && InstanceOk(s, digest, p) ==> InstanceOk(t, digest, p)
    ensures AcksOk(s) && t.acks == s.acks ==> AcksOk(t)
  {
    hide NodeOk, AnnouncedOk, Advances, Stored;
    forall p | p in s.nodes ensures Advances(s.nodes[p], t.nodes[p]) { UnchangedAdvances(s.nodes[p]); }
    forall p | p in s.nodes && InstanceOk(s, digest, p) ensures InstanceOk(t, digest, p) {
      BystanderKeeps(s, t, digest, p);
    }
  }

  lemma ReceiveKeeps(s: System, mac: Mac, digest: Digest, p: PeerId, envelope: Option<Envelope>, signature: Json,
                     now: int, t: System)
    requires SystemOk(s, digest)
    requires Next(s, mac, digest, Receive(p, envelope, signature, now), t)
    ensures SystemOk(t, digest) && SystemAdvances(s, t)
  {
    hide InstanceOk, Step, Advances, PacketsOk, AcksOk, Evolves, Admit, MayArrive, PublicationOf;
    match Admit(p, s.nodes[p].process.peers, mac, envelope, signature)
    case Failure(_) => SameNodes(s, t, digest);
    case Success(r) =>
      AdmittedIsGenuine(s, mac, digest, p, envelope, signature);
      if r.WorkRequest? {
        var a := Store(r.id, r.sender, r.content, r.replyTo, r.hops, now);
        StepAtKeeps(s, digest, p, a, t);
      } else {
        var a := AcceptResult(r.id, r.sender, r.request, r.content, now);
        StepAtKeeps(s, digest, p, a, t);
      }
      PacketsStay(s, t);
      ReceiptIsStored(s, digest, p, r, now, t);
      AcksStay(s, t);
  }

  lemma ReceiptIsStored(s: System, digest: Digest, p: PeerId, r: Request, now: int, t: System)
    requires p in s.nodes
    requires if r.WorkRequest? then ReceivesWork(s, digest, p, r, now, t) else ReceivesResult(s, digest, p, r, now, t)
    ensures Stored(t.nodes[p], if r.WorkRequest? then Work else Reply, r.id)
    ensures r.WorkRequest? && r.id in s.nodes[p].db.inbox ==> Stored(t.nodes[p], Work, r.id)
  {
  }

  lemma AckArrivesKeeps(s: System, mac: Mac, digest: Digest, p: PeerId, t: System)
    requires SystemOk(s, digest) && Next(s, mac, digest, AckArrives(p), t)
    ensures SystemOk(t, digest) && SystemAdvances(s, t)
  {
    hide InstanceOk, Step, Advances, PacketsOk, Evolves, Stored;
    StepAtKeeps(s, digest, p, HeadAcked, t);
    PacketsStay(s, t);
    AcksStay(s, t);
  }

  lemma NextKeeps(s: System, mac: Mac, digest: Digest, move: Move, t: System)
    requires SystemOk(s, digest) && Next(s, mac, digest, move, t)
    ensures SystemOk(t, digest) && SystemAdvances(s, t)
  {
    hide SystemOk, SystemAdvances, StepAt, MayArrive, Admit, ReceivesWork, ReceivesResult;
    match move
    case Local(p, a) => LocalKeeps(s, digest, p, a, t);
    case Transmit(p) => TransmitKeeps(s, mac, digest, p, t);
    case Receive(p, envelope, signature, now) => ReceiveKeeps(s, mac, digest, p, envelope, signature, now, t);
    case AckArrives(p) => AckArrivesKeeps(s, mac, digest, p, t);
  }

  lemma EmptyIsOk(digest: Digest)
    ensures NodeOk(digest, EMPTY) && AnnouncedOk(EMPTY)
  {
  }

  lemma InitIsOk(s: System, digest: Digest)
    requires Init(s)
    ensures SystemOk(s, digest)
  {
    hide NodeOk, AnnouncedOk;
    EmptyIsOk(digest);
  }

  lemma {:induction false} RunIsOk(run: seq<System>, moves: seq<Move>, mac: Mac, digest: Digest, i: nat)
    requires IsRun(run, moves, mac, digest) && i < |run|
    ensures SystemOk(run[i], digest)
  {
    hide SystemOk, Next;
    if i == 0 {
      InitIsOk(run[0], digest);
    } else {
      RunIsOk(run, moves, mac, digest, i - 1);
      NextKeeps(run[i - 1], mac, digest, moves[i - 1], run[i]);
    }
  }

  lemma AdvancesTransitively(s: System, t: System, u: System)
    requires SystemAdvances(s, t) && SystemAdvances(t, u)
    ensures SystemAdvances(s, u)
  {
    forall p | p in s.nodes ensures Advances(s.nodes[p], u.nodes[p]) {
      assert Advances(s.nodes[p], t.nodes[p]) && Advances(t.nodes[p], u.nodes[p]);
      EvolvesIsTransitive(s.nodes[p].db, t.nodes[p].db, u.nodes[p].db);
    }
  }

  /**
   Over every stretch of every run, no row of any table disappears or changes what it
   says, and inbox states only climb received, queued, started, completed.
   */
  lemma {:induction false} RunsOnlyClimb(run: seq<System>, moves: seq<Move>, mac: Mac, digest: Digest, i: nat, j: nat)
    requires IsRun(run, moves, mac, digest) && i <= j < |run|
    ensures SystemAdvances(run[i], run[j])
    decreases j
  {
    hide SystemOk, Next, SystemAdvances;
    if i == j {
      SameNodes(run[i], run[i], digest);
    } else {
      RunsOnlyClimb(run, moves, mac, digest, i, j - 1);
      RunIsOk(run, moves, mac, digest, j - 1);
      NextKeeps(run[j - 1], mac, digest, moves[j - 1], run[j]);
      AdvancesTransitively(run[i], run[j - 1], run[j]);
    }
  }

  // ----- at most one execution -------------------------------------------------------

  /** The move by which `begin_inbox(id)` returns true at `p`. */
  predicate StartsExecution(s: System, move: Move, p: PeerId, id: Id) {
    move == Local(p, BeginWork(id)) && p in s.nodes && Begin(s.nodes[p].db, id).1
  }

  /**
   `begin_inbox(id)` returns true at most once in any run, whatever is lost, repeated or
   reordered, however often the instance crashes and restarts, and whoever calls it.
   */
  lemma AtMostOneExecution(run: seq<System>, moves: seq<Move>, mac: Mac, digest: Digest,
                           p: PeerId, id: Id, i: nat, j: nat)
    requires IsRun(run, moves, mac, digest) && i < |moves| && j < |moves|
    requires StartsExecution(run[i], moves[i], p, id) && StartsExecution(run[j], moves[j], p, id)
    ensures i == j
  {
    if i < j {
      ExecutionIsNotRepeated(run, moves, mac, digest, p, id, i, j);
    } else if j < i {
      ExecutionIsNotRepeated(run, moves, mac, digest, p, id, j, i);
    }
  }

  lemma ExecutionIsNotRepeated(run: seq<System>, moves: seq<Move>, mac: Mac, digest: Digest,
                               p: PeerId, id: Id, i: nat, j: nat)
    requires IsRun(run, moves, mac, digest) && i < j < |moves|
    requires StartsExecution(run[i], moves[i], p, id)
    ensures !StartsExecution(run[j], moves[j], p, id)
  {
    assert Next(run[i], mac, digest, moves[i], run[i + 1]);
    RunsOnlyClimb(run, moves, mac, digest, i + 1, j);
    assert Advances(run[i + 1].nodes[p], run[j].nodes[p]);
    BegunStaysBegun(run[i].nodes[p].db, id, run[j].nodes[p].db);
  }

  /** Completed is terminal: no later claim or begin finds anything to do. */
  lemma CompletedIsTerminal(run: seq<System>, moves: seq<Move>, mac: Mac, digest: Digest,
                            p: PeerId, id: Id, i: nat, j: nat)
    requires IsRun(run, moves, mac, digest) && i <= j < |run|
    requires p in run[i].nodes && id in run[i].nodes[p].db.inbox
    requires run[i].nodes[p].db.inbox[id].state == Completed
    ensures p in run[j].nodes && id in run[j].nodes[p].db.inbox
    ensures run[j].nodes[p].db.inbox[id].state == Completed
  {
    RunsOnlyClimb(run, moves, mac, digest, i, j);
    assert Advances(run[i].nodes[p], run[j].nodes[p]);
  }

  // ----- result agreement --------------------------------------------------------------

  /**
   A result a requester holds from a modelled peer reports that peer's first reply to the
   request: the peer's row for it is completed, was the requester's own, and every later
   completion or retransmission left the text alone.
   */
  lemma ResultAgreement(run: seq<System>, moves: seq<Move>, mac: Mac, digest: Digest, i: nat,
                        a: PeerId, b: PeerId, rid: Id)
    requires IsRun(run, moves, mac, digest) && i < |run|
    requires a in run[i].nodes && rid in run[i].nodes[a].db.results
    requires run[i].nodes[a].db.results[rid].answer.sender == b && b in run[i].nodes
    ensures var answer := run[i].nodes[a].db.results[rid].answer;
            var peer := run[i].nodes[b];
            && rid == ResultId(digest, answer.request)
            && answer.request in peer.db.inbox
            && peer.db.inbox[answer.request].state == Completed
            && peer.db.inbox[answer.request].job.sender == a
            && ReportsFirst(peer.log, answer.request, answer.content)
  {
    RunIsOk(run, moves, mac, digest, i);
    AgreementAt(run[i], digest, a, b, rid);
  }

  lemma AgreementAt(s: System, digest: Digest, a: PeerId, b: PeerId, rid: Id)
    requires SystemOk(s, digest)
    requires a in s.nodes && rid in s.nodes[a].db.results
    requires s.nodes[a].db.results[rid].answer.sender == b && b in s.nodes
    ensures var answer := s.nodes[a].db.results[rid].answer;
            var peer := s.nodes[b];
            && rid == ResultId(digest, answer.request)
            && answer.request in peer.db.inbox
            && peer.db.inbox[answer.request].state == Completed
            && peer.db.inbox[answer.request].job.sender == a
            && ReportsFirst(peer.log, answer.request, answer.content)
  {
    hide ProcessOk, JobsOk, AckedOk, AnnouncedOk, PacketsOk, AcksOk;
    assert InstanceOk(s, digest, a) && InstanceOk(s, digest, b);
    var answer := s.nodes[a].db.results[rid].answer;
    assert AnswerFrom(s, a, rid, answer);
    OutboxRowOk(digest, s.nodes[b].db.outbox, rid);
  }

  /** A requester never holds two results for one request from one modelled peer. */
  lemma OneResultPerRequest(run: seq<System>, moves: seq<Move>, mac: Mac, digest: Digest, i: nat,
                            a: PeerId, r1: Id, r2: Id)
    requires IsRun(run, moves, mac, digest) && i < |run|
    requires a in run[i].nodes && r1 in run[i].nodes[a].db.results && r2 in run[i].nodes[a].db.results
    requires run[i].nodes[a].db.results[r1].answer.sender in run[i].nodes
    requires run[i].nodes[a].db.results[r2].answer.sender in run[i].nodes
    requires run[i].nodes[a].db.results[r1].answer.request == run[i].nodes[a].db.results[r2].answer.request
    ensures r1 == r2
  {
    ResultAgreement(run, moves, mac, digest, i, a, run[i].nodes[a].db.results[r1].answer.sender, r1);
    ResultAgreement(run, moves, mac, digest, i, a, run[i].nodes[a].db.results[r2].answer.sender, r2);
  }

  /** What reaches the requester's channel in the name of a modelled peer reports that peer's first reply. */
  lemma AnnouncedTextAgrees(run: seq<System>, moves: seq<Move>, mac: Mac, digest: Digest, i: nat, a: PeerId, k: nat)
    requires IsRun(run, moves, mac, digest) && i < |run|
    requires a in run[i].nodes && k < |run[i].nodes[a].log| && run[i].nodes[a].log[k].Announced?
    requires run[i].nodes[a].log[k].answer.sender in run[i].nodes
    ensures var answer := run[i].nodes[a].log[k].answer;
            ReportsFirst(run[i].nodes[answer.sender].log, answer.request, answer.content)
  {
    RunIsOk(run, moves, mac, digest, i);
    assert InstanceOk(run[i], digest, a);
    var e := run[i].nodes[a].log[k];
    AgreementAt(run[i], digest, a, e.answer.sender, e.result);
  }

  // ----- acknowledged means stored ------------------------------------------------------

  /**
   No acknowledged message is lost: the receiver has it, and if the row under its id is
   the sender's own, it says what the sender wrote.
   */
  lemma AckedMeansStored(run: seq<System>, moves: seq<Move>, mac: Mac, digest: Digest, i: nat, p: PeerId, id: Id)
    requires IsRun(run, moves, mac, digest) && i < |run|
    requires p in run[i].nodes && Acknowledged(run[i].nodes[p].db.outbox, id)
    requires run[i].nodes[p].db.outbox[id].letter.peer in run[i].nodes
    ensures var letter := run[i].nodes[p].db.outbox[id].letter;
            var peer := run[i].nodes[letter.peer].db;
            if letter.kind == Work then
              && id in peer.inbox
              && (peer.inbox[id].job.sender == p ==> peer.inbox[id].job.content == letter.content)
            else
              && id in peer.results
              && (peer.results[id].answer.sender == p ==> peer.results[id].answer.content == letter.content)
  {
    RunIsOk(run, moves, mac, digest, i);
    var s, letter := run[i], run[i].nodes[p].db.outbox[id].letter;
    assert InstanceOk(s, digest, p) && InstanceOk(s, digest, letter.peer);
    hide NodeOk, AnnouncedOk, PacketsOk, AcksOk;
    if letter.kind == Work {
      assert JobFrom(s, letter.peer, id, s.nodes[letter.peer].db.inbox[id].job);
    } else {
      assert AnswerFrom(s, letter.peer, id, s.nodes[letter.peer].db.results[id].answer);
    }
  }

  // ----- recovery ------------------------------------------------------------------------

  /** No crash of `p` among the moves from `i` up to `j`. */
  ghost predicate Undisturbed(moves: seq<Move>, p: PeerId, i: nat, j: nat)
    requires i <= j <= |moves|
  {
    forall k :: i <= k < j ==> moves[k] != Local(p, Crash)
  }

  /** Within one incarnation the snapshot and the pairing stay as they were read. */
  lemma IncarnationStays(s: System, mac: Mac, digest: Digest, move: Move, t: System, p: PeerId)
    requires Next(s, mac, digest, move, t) && p in s.nodes && s.nodes[p].process.Up? && move != Local(p, Crash)
    ensures p in t.nodes && t.nodes[p].process.Up?
    ensures t.nodes[p].process.snapshot == s.nodes[p].process.snapshot
    ensures t.nodes[p].process.peers == s.nodes[p].process.peers
    ensures s.nodes[p].process.published <= t.nodes[p].process.published
  {
    hide Complete, Admit, MayArrive, PublicationOf, Accept, MarkRetry, MarkAcked, MarkFailed, Enqueue;
    hide IsPendingBatch, IsPendingInbox, CompletionEvents;
    match move
    case Local(q, a) => if q == p { StepStays(s.nodes[p], digest, a, t.nodes[p]); }
    case Receive(q, envelope, signature, now) =>
    case _ =>
  }

  lemma StepStays(n: Node, digest: Digest, a: Action, m: Node)
    requires Step(n, digest, a, m) && n.process.Up? && !a.Crash?
    ensures m.process.Up? && m.process.snapshot == n.process.snapshot && m.process.peers == n.process.peers
    ensures n.process.published <= m.process.published
  {
    hide Complete, PublicationOf, Accept, MarkRetry, MarkAcked, MarkFailed, Enqueue, IsPendingBatch, IsPendingInbox;
    hide CompletionEvents;
  }

  lemma {:induction false} IncarnationLasts(run: seq<System>, moves: seq<Move>, mac: Mac, digest: Digest,
                                            p: PeerId, i: nat, j: nat)
    requires IsRun(run, moves, mac, digest) && i <= j < |run| && Undisturbed(moves, p, i, j)
    requires p in run[i].nodes && run[i].nodes[p].process.Up?
    ensures p in run[j].nodes && run[j].nodes[p].process.Up?
    ensures run[j].nodes[p].process.snapshot == run[i].nodes[p].process.snapshot
    ensures run[j].nodes[p].process.peers == run[i].nodes[p].process.peers
    decreases j
  {
    hide Next;
    if i < j {
      IncarnationLasts(run, moves, mac, digest, p, i, j - 1);
      IncarnationStays(run[j - 1], mac, digest, moves[j - 1], run[j], p);
    }
  }

  /**
   Recovery neither loses nor doubles work. Once the loop in `start` has passed every row
   it read, each row that was received or queued when the process came up has been put on
   the bus, and each that was started is completed. If its sender is still paired the notice
   of the interruption is in the outbox as its reply, exactly unless another request with the
   same shortened digest took the result id.
   */
  lemma RecoveryIsComplete(run: seq<System>, moves: seq<Move>, mac: Mac, digest: Digest,
                           p: PeerId, i: nat, j: nat, id: Id)
    requires IsRun(run, moves, mac, digest) && i < j < |run| && Undisturbed(moves, p, i + 1, j)
    requires moves[i].Local? && moves[i].p == p && moves[i].a.Boot?
    requires p in run[j].nodes && run[j].nodes[p].process.Up?
    requires run[j].nodes[p].process.next == |run[j].nodes[p].process.snapshot|
    requires p in run[i].nodes && id in run[i].nodes[p].db.inbox && Unfinished(run[i].nodes[p].db.inbox[id])
    ensures var row, n := run[i].nodes[p].db.inbox[id], run[j].nodes[p];
            if row.state == Started then
              && id in n.db.inbox && n.db.inbox[id].state == Completed
              && (row.job.sender in n.process.peers ==>
                    && (HasReplyRow(digest, n.db.outbox, id) <==> !IdTaken(digest, n.db.inbox, n.db.outbox, id))
                    && (HasReplyRow(digest, n.db.outbox, id) ==>
                          n.db.outbox[ResultId(digest, id)].letter.content == INTERRUPTED))
            else id in n.process.published
  {
    hide PacketsOk, AcksOk, JobsOk, AnswersOk, AckedOk, AnnouncedOk, Evolves;
    var before, after, n := run[i].nodes[p], run[i + 1].nodes[p], run[j].nodes[p];
    assert Next(run[i], mac, digest, moves[i], run[i + 1]);
    RunIsOk(run, moves, mac, digest, i);
    RunIsOk(run, moves, mac, digest, j);
    assert InstanceOk(run[i], digest, p) && InstanceOk(run[j], digest, p);
    UpgradeFindsNothing(digest, before.db, before.log);
    IncarnationLasts(run, moves, mac, digest, p, i + 1, j);
    var k :| 0 <= k < |moves[i].a.rows| && moves[i].a.rows[k].0 == id;
    PassedRow(digest, n, k);
  }

  lemma PassedRow(digest: Digest, n: Node, k: nat)
    requires NodeOk(digest, n) && n.process.Up? && k < n.process.next <= |n.process.snapshot|
    ensures var (id, row) := n.process.snapshot[k];
            if row.state == Started then
              && id in n.db.inbox && n.db.inbox[id].state == Completed
              && (row.job.sender in n.process.peers ==>
                    && (HasReplyRow(digest, n.db.outbox, id) <==> !IdTaken(digest, n.db.inbox, n.db.outbox, id))
                    && (HasReplyRow(digest, n.db.outbox, id) ==>
                          n.db.outbox[ResultId(digest, id)].letter.content == INTERRUPTED))
            else id in n.process.published
  {
    hide TablesOk, BusOk, SnapshotOk, HandlersOk, BegunOk, NothingForgotten, BatchOk, HasReplyRow, IdTaken;
    var p := n.process;
    assert p.snapshot[..p.next][k] == p.snapshot[k];
    assert Recovered(p.peers, p.published, n.db.inbox, n.log, p.snapshot[k].0, p.snapshot[k].1);
    if FirstReply(n.log, p.snapshot[k].0).Some? {
      ReplyIsSentIff(digest, n.db, n.log, p.snapshot[k].0);
      ReplyRowReports(digest, n.db, n.log, p.snapshot[k].0);
    }
  }

  lemma ReplyRowReports(digest: Digest, db: Db, log: seq<Event>, id: Id)
    requires TablesOk(digest, db, log)
    ensures HasReplyRow(digest, db.outbox, id) && FirstReply(log, id) == Some(INTERRUPTED) ==>
              db.outbox[ResultId(digest, id)].letter.content == INTERRUPTED
  {
    hide OutboxOk, InboxOk, BeganOk, RepliedOk, ResultId, Reports;
    if HasReplyRow(digest, db.outbox, id) && FirstReply(log, id) == Some(INTERRUPTED) {
      InterruptionIsReported(db.outbox[ResultId(digest, id)].letter.content);
    }
  }

  /** No id is put on the bus twice in one incarnation, and nothing stored is forgotten. */
  lemma BusHasNoDuplicates(run: seq<System>, moves: seq<Move>, mac: Mac, digest: Digest, i: nat, p: PeerId)
    requires IsRun(run, moves, mac, digest) && i < |run|
    requires p in run[i].nodes && run[i].nodes[p].process.Up?
    ensures var n := run[i].nodes[p];
            && Distinct(n.process.published)
            && n.process.next <= |n.process.snapshot|
            && forall id :: id in n.db.inbox && n.db.inbox[id].state == Received ==>
                 id in n.process.handlers || id in Waiting(n.process.snapshot, n.process.next)
  {
    hide PacketsOk, AcksOk, JobsOk, AnswersOk, AckedOk, AnnouncedOk, TablesOk;
    RunIsOk(run, moves, mac, digest, i);
    assert InstanceOk(run[i], digest, p);
  }

  /** In every reachable state a replied request has its reply in the outbox unless another took its result id. */
  lemma EveryReplyIsSentIff(run: seq<System>, moves: seq<Move>, mac: Mac, digest: Digest, i: nat, p: PeerId, id: Id)
    requires IsRun(run, moves, mac, digest) && i < |run| && p in run[i].nodes
    requires FirstReply(run[i].nodes[p].log, id).Some?
    ensures var n := run[i].nodes[p];
            HasReplyRow(digest, n.db.outbox, id) <==> !IdTaken(digest, n.db.inbox, n.db.outbox, id)
  {
    hide TablesOk, ProcessOk, PacketsOk, AcksOk, JobsOk, AnswersOk, AckedOk, AnnouncedOk, HasReplyRow, IdTaken;
    RunIsOk(run, moves, mac, digest, i);
    assert InstanceOk(run[i], digest, p);
    ReplyIsSentIff(digest, run[i].nodes[p].db, run[i].nodes[p].log, id);
  }

  // ----- redelivery ----------------------------------------------------------------------

  /** A work envelope whose id is already stored changes no table, no bus and no history. */
  lemma RedeliveryChangesNothing(s: System, mac: Mac, digest: Digest, p: PeerId, envelope: Option<Envelope>,
                                 signature: Json, now: int, t: System)
    requires Next(s, mac, digest, Receive(p, envelope, signature, now), t)
    requires var outcome := Admit(p, s.nodes[p].process.peers, mac, envelope, signature);
             outcome.Success? ==>
               if outcome.value.WorkRequest? then outcome.value.id in s.nodes[p].db.inbox
               else outcome.value.id in s.nodes[p].db.results
    ensures t.nodes == s.nodes && t.net == s.net
  {
    hide Admit, MayArrive, PublicationOf;
  }
}
