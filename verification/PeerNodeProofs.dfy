/** Every step of an instance keeps its invariant. */
module PeerNodeProofs {
  import opened Wrappers
  import opened Strings
  import opened PeerTypes
  import opened PeerStore
  import opened PeerNode

  /** The invariant but for the rows that were started before. */
  ghost predicate CoreOk(digest: Digest, n: Node) {
    TablesOk(digest, n.db, n.log) && ProcessOk(n.process, n.db, n.log)
  }

  ghost predicate Keeps(digest: Digest, n: Node, m: Node) {
    CoreOk(digest, m) && Advances(n, m)
  }

  lemma NothingChanged(db: Db)
    ensures Evolves(db, db)
  {
  }

  // ----- statements on the outbox ---------------------------------------------

  lemma OutboxRowOk(digest: Digest, outbox: map<Id, OutRow>, id: Id)
    requires OutboxOk(digest, outbox) && id in outbox
    ensures LetterOk(digest, id, outbox[id].letter) && AttemptsOk(outbox[id])
  {
  }

  /** An update that leaves the letter alone and the attempts in range. */
  lemma LetterKept(digest: Digest, db: Db, log: seq<Event>, id: Id, row: OutRow)
    requires TablesOk(digest, db, log)
    requires id in db.outbox && db.outbox[id].letter == row.letter && AttemptsOk(row)
    ensures var updated := db.(outbox := db.outbox[id := row]);
            TablesOk(digest, updated, log) && Evolves(db, updated)
  {
    hide LetterOk, AttemptsOk;
  }

  lemma BatchHead(batch: seq<(Id, OutRow)>, outbox: map<Id, OutRow>)
    requires batch != [] && BatchOk(batch, outbox)
    ensures var (id, row) := batch[0];
            && id in outbox && row.letter == outbox[id].letter
            && row.attempts == outbox[id].attempts && 0 <= row.attempts < MAX_ATTEMPTS
    ensures forall i :: 0 < i < |batch| ==> batch[i].0 != batch[0].0
  {
    assert forall i :: 0 <= i < |batch| ==> Ids(batch)[i] == batch[i].0;
  }

  lemma BatchTail(batch: seq<(Id, OutRow)>, outbox: map<Id, OutRow>, row: OutRow)
    requires batch != [] && BatchOk(batch, outbox)
    ensures BatchOk(batch[1..], outbox[batch[0].0 := row])
  {
    BatchHead(batch, outbox);
    assert Ids(batch[1..]) == Ids(batch)[1..];
  }

  /** Rows in flight notice only their own letter and attempts. */
  lemma BatchFrame(batch: seq<(Id, OutRow)>, outbox: map<Id, OutRow>, id: Id, row: OutRow)
    requires BatchOk(batch, outbox)
    requires id in outbox ==> outbox[id].letter == row.letter && outbox[id].attempts == row.attempts
    ensures BatchOk(batch, outbox[id := row])
  {
  }

  lemma SettleKeeps(digest: Digest, n: Node, a: Action, m: Node)
    requires CoreOk(digest, n) && SettlesHead(n, a, m)
    ensures Keeps(digest, n, m)
  {
    hide OutboxOk, InboxOk, BeganOk, RepliesOk, RepliedOk;
    hide BusOk, SnapshotOk, RecoveredOk, HandlersOk, BegunOk, NothingForgotten, BatchOk, Evolves;
    BatchHead(n.process.batch, n.db.outbox);
    var id := n.process.batch[0].0;
    var row := m.db.outbox[id];
    assert m.db == n.db.(outbox := n.db.outbox[id := row]);
    LetterKept(digest, n.db, n.log, id, row) by { OutboxRowOk(digest, n.db.outbox, id); }
    BatchTail(n.process.batch, n.db.outbox, row);
  }

  lemma NewWorkRow(digest: Digest, db: Db, log: seq<Event>, id: Id, row: OutRow)
    requires TablesOk(digest, db, log) && id !in db.outbox
    requires row.letter.kind == Work && LetterOk(digest, id, row.letter) && AttemptsOk(row)
    ensures TablesOk(digest, db.(outbox := db.outbox[id := row]), log)
    ensures Evolves(db, db.(outbox := db.outbox[id := row]))
  {
    hide LetterOk, AttemptsOk;
  }

  lemma SubmitKeeps(digest: Digest, n: Node, id: Id, peer: PeerId, content: string, replyTo: Option<Id>,
                    hops: int, channel: Option<string>, chat: Option<string>, session: Option<string>, now: int,
                    m: Node)
    requires CoreOk(digest, n)
    requires Submits(n, id, peer, content, replyTo, hops, channel, chat, session, now, m)
    ensures Keeps(digest, n, m)
  {
    hide OutboxOk, InboxOk, BeganOk, RepliesOk, RepliedOk;
    hide BusOk, SnapshotOk, RecoveredOk, HandlersOk, BegunOk, NothingForgotten, BatchOk, Evolves;
    if m != n {
      StrippedStartsWithText(content);
      TextWithFirstCharIsNotBlank(Strip(content));
      NewWorkRow(digest, n.db, n.log, id, m.db.outbox[id]);
      BatchFrame(n.process.batch, n.db.outbox, id, m.db.outbox[id]);
    } else {
      NothingChanged(n.db);
    }
  }

  lemma PollKeeps(digest: Digest, n: Node, due: seq<(Id, OutRow)>, now: int, m: Node)
    requires CoreOk(digest, n) && Polls(n, due, now, m)
    ensures Keeps(digest, n, m)
  {
    hide InboxOk, BeganOk, RepliesOk, RepliedOk, LetterOk;
    hide BusOk, SnapshotOk, RecoveredOk, HandlersOk, BegunOk, NothingForgotten;
    assert BatchOk(due, n.db.outbox) by {
      assert forall i :: 0 <= i < |due| ==> AttemptsOk(n.db.outbox[due[i].0]);
    }
  }

  lemma AcceptKeeps(digest: Digest, n: Node, id: Id, sender: PeerId, request: Id, content: string, now: int, m: Node)
    requires CoreOk(digest, n) && Accepts(n, id, sender, request, content, now, m)
    ensures Keeps(digest, n, m)
  {
    hide OutboxOk, InboxOk, BeganOk, RepliesOk, RepliedOk, LetterOk;
    hide BusOk, SnapshotOk, RecoveredOk, HandlersOk, BegunOk, NothingForgotten, BatchOk;
    if id !in n.db.results && request in n.db.outbox && n.db.outbox[request].letter.peer == sender {
      OutboxRowOk(digest, n.db.outbox, request);
      LetterKept(digest, n.db, n.log, request, m.db.outbox[request]);
      BatchFrame(n.process.batch, n.db.outbox, request, m.db.outbox[request]);
    }
  }

  lemma SetPublishedKeeps(digest: Digest, n: Node, id: Id, m: Node)
    requires CoreOk(digest, n) && SetsPublished(n, id, m)
    ensures Keeps(digest, n, m)
  {
    hide OutboxOk, InboxOk, BeganOk, RepliesOk, RepliedOk, LetterOk;
    hide BusOk, SnapshotOk, RecoveredOk, HandlersOk, BegunOk, NothingForgotten, BatchOk;
  }

  // ----- statements on the inbox ----------------------------------------------

  lemma NewInboxRow(digest: Digest, db: Db, log: seq<Event>, id: Id, job: Job)
    requires TablesOk(digest, db, log) && id !in db.inbox
    requires |id| <= MAX_ID && job.kind == Work && 1 <= job.hops <= MAX_REPLY_HOPS
    ensures var stored := db.(inbox := db.inbox[id := InRow(job, Received, false)]);
            TablesOk(digest, stored, log) && Evolves(db, stored)
  {
    hide OutboxOk, HasReplyRow, ReportsFirst;
  }

  lemma SnapshotIds(snapshot: seq<(Id, InRow)>, next: nat, inbox: map<Id, InRow>)
    requires SnapshotOk(snapshot, next, inbox)
    ensures forall id :: id in Ids(snapshot) ==> id in inbox
  {
    forall id | id in Ids(snapshot) ensures id in inbox {
      var i :| 0 <= i < |snapshot| && Ids(snapshot)[i] == id;
      assert SnapshotRowOk(inbox, snapshot[i].0, snapshot[i].1, next <= i);
    }
  }

  lemma StoreKeeps(digest: Digest, n: Node, id: Id, sender: PeerId, content: string, replyTo: Option<Id>,
                   hops: int, now: int, m: Node)
    requires CoreOk(digest, n) && Stores(n, id, sender, content, replyTo, hops, now, m)
    ensures Keeps(digest, n, m)
  {
    hide OutboxOk, InboxOk, BeganOk, RepliesOk, RepliedOk, BatchOk, Evolves, SnapshotOk, RecoveredOk;
    if m == n {
      NothingChanged(n.db);
    } else {
      var p := n.process;
      NewInboxRow(digest, n.db, n.log, id, m.db.inbox[id].job);
      SnapshotIds(p.snapshot, p.next, n.db.inbox);
      SnapshotFrame(p.snapshot, p.next, n.db.inbox, id, m.db.inbox[id]);
      RecoveredFrame(p.snapshot[..p.next], p.peers, p.published, n.db.inbox, n.log, id, m.db.inbox[id], []);
      assert p.published + [] == p.published;
    }
  }

  /** A row that climbs, keeping its job, disturbs no table invariant. */
  lemma ClimbKeepsTables(digest: Digest, db: Db, log: seq<Event>, id: Id, row: InRow)
    requires TablesOk(digest, db, log) && id in db.inbox
    requires row.job == db.inbox[id].job && Rank(db.inbox[id].state) <= Rank(row.state)
    requires row.delivered ==> row.state == Completed
    ensures var climbed := db.(inbox := db.inbox[id := row]);
            TablesOk(digest, climbed, log) && Evolves(db, climbed)
  {
    hide OutboxOk, HasReplyRow, ReportsFirst;
  }

  /** A row past `received` may climb further under any process. */
  lemma ClimbKeepsProcess(p: Process, db: Db, log: seq<Event>, id: Id, row: InRow)
    requires ProcessOk(p, db, log) && id in db.inbox && db.inbox[id].state != Received
    requires row.job == db.inbox[id].job && Rank(db.inbox[id].state) <= Rank(row.state)
    ensures ProcessOk(p, db.(inbox := db.inbox[id := row]), log)
  {
    hide BatchOk;
  }

  lemma BeginKeeps(digest: Digest, n: Node, id: Id, m: Node)
    requires CoreOk(digest, n) && Begins(n, id, m)
    ensures Keeps(digest, n, m)
  {
    hide OutboxOk, RepliesOk, RepliedOk, InboxOk;
    hide BusOk, SnapshotOk, HandlersOk, NothingForgotten, BatchOk, RecoveredOk, Evolves;
    if m == n {
      NothingChanged(n.db);
    } else {
      var row := m.db.inbox[id];
      UndeliveredUntilCompleted(n.db.inbox, id);
      ClimbKeepsTables(digest, n.db, n.log, id, row);
      ClimbKeepsProcess(n.process, n.db, n.log, id, row);
      LogGrowsWithoutReply(digest, m.db, n.log, Began(id), n.process);
    }
  }

  lemma UndeliveredUntilCompleted(inbox: map<Id, InRow>, id: Id)
    requires InboxOk(inbox) && id in inbox && inbox[id].state != Completed
    ensures !inbox[id].delivered
  {
  }

  /** History events that are not replies change nothing the reply invariants read. */
  lemma LogGrowsWithoutReply(digest: Digest, db: Db, log: seq<Event>, e: Event, p: Process)
    requires !e.Replied?
    ensures RepliesOk(log, db.inbox, db.outbox) ==> RepliesOk(log + [e], db.inbox, db.outbox)
    ensures RepliedOk(digest, log, db.inbox, db.outbox) ==> RepliedOk(digest, log + [e], db.inbox, db.outbox)
    ensures p.Up? && p.next <= |p.snapshot|
            && RecoveredOk(p.snapshot[..p.next], p.peers, p.published, db.inbox, log) ==>
              RecoveredOk(p.snapshot[..p.next], p.peers, p.published, db.inbox, log + [e])
  {
    forall id ensures FirstReply(log + [e], id) == FirstReply(log, id) {
      FirstReplyExtends(log, [e], id);
    }
  }

  lemma AnnounceKeeps(digest: Digest, n: Node, id: Id, m: Node)
    requires CoreOk(digest, n) && Announces(n, id, m)
    ensures Keeps(digest, n, m)
  {
    hide OutboxOk, RepliesOk, RepliedOk, LetterOk, InboxOk, PublicationOf;
    hide BusOk, SnapshotOk, HandlersOk, NothingForgotten, BegunOk, BatchOk, RecoveredOk;
    LogGrowsWithoutReply(digest, n.db, n.log, m.log[|n.log|], n.process);
  }

  lemma SnapshotFrame(snapshot: seq<(Id, InRow)>, next: nat, inbox: map<Id, InRow>, id: Id, row: InRow)
    requires SnapshotOk(snapshot, next, inbox) && id !in Ids(snapshot)
    ensures SnapshotOk(snapshot, next, inbox[id := row])
  {
    forall i | 0 <= i < |snapshot|
      ensures SnapshotRowOk(inbox[id := row], snapshot[i].0, snapshot[i].1, next <= i)
    {
      assert Ids(snapshot)[i] == snapshot[i].0;
      assert SnapshotRowOk(inbox, snapshot[i].0, snapshot[i].1, next <= i);
    }
  }

  /** More published ids and higher rows leave what recovery has settled settled. */
  lemma RecoveredFrame(passed: seq<(Id, InRow)>, peers: Peers, published: seq<Id>, inbox: map<Id, InRow>,
                       log: seq<Event>, id: Id, row: InRow, more: seq<Id>)
    requires RecoveredOk(passed, peers, published, inbox, log)
    requires id in inbox ==> Rank(inbox[id].state) <= Rank(row.state)
    ensures RecoveredOk(passed, peers, published + more, inbox[id := row], log)
  {
    forall i | 0 <= i < |passed|
      ensures Recovered(peers, published + more, inbox[id := row], log, passed[i].0, passed[i].1)
    {
      assert Recovered(peers, published, inbox, log, passed[i].0, passed[i].1);
    }
  }

  /** Claiming a received row and putting it on the bus, by whoever owned it. */
  lemma ClaimedOntoBus(published: seq<Id>, waiting: seq<Id>, waiting': seq<Id>, inbox: map<Id, InRow>, id: Id,
                       row: InRow)
    requires BusOk(published, waiting, inbox) && id in inbox && row.state == Queued
    requires inbox[id].state == Received || (inbox[id].state != Completed && id in waiting)
    requires forall x :: x in waiting' ==> x in waiting
    requires id !in waiting'
    ensures inbox[id].state == Received ==> BusOk(published + [id], waiting', inbox[id := row])
    ensures id in waiting ==> Rank(inbox[id].state) >= Rank(Queued) ==> BusOk(published + [id], waiting', inbox)
  {
    assert id !in published;
  }

  lemma HandlerDone(handlers: set<Id>, ids: seq<Id>, waiting: seq<Id>, begun: set<Id>, inbox: map<Id, InRow>,
                    id: Id, row: InRow)
    requires HandlersOk(handlers, ids, inbox) && NothingForgotten(handlers, waiting, inbox) && BegunOk(begun, inbox)
    requires id in handlers && row.state == Queued
    ensures HandlersOk(handlers - {id}, ids, inbox[id := row])
    ensures NothingForgotten(handlers - {id}, waiting, inbox[id := row])
    ensures BegunOk(begun, inbox[id := row])
  {
  }

  lemma HandlerOwnsReceived(handlers: set<Id>, ids: seq<Id>, inbox: map<Id, InRow>, id: Id)
    requires HandlersOk(handlers, ids, inbox) && id in handlers
    ensures id in inbox && inbox[id].state == Received && id !in ids
  {
  }

  lemma PublishStoredKeeps(digest: Digest, n: Node, id: Id, m: Node)
    requires CoreOk(digest, n) && PublishesStored(n, id, m)
    ensures Keeps(digest, n, m)
  {
    hide OutboxOk, InboxOk, BeganOk, RepliesOk, RepliedOk, BatchOk, Evolves;
    hide BusOk, SnapshotOk, RecoveredOk, HandlersOk, NothingForgotten, BegunOk;
    var p := n.process;
    var waiting := Waiting(p.snapshot, p.next);
    HandlerOwnsReceived(p.handlers, Ids(p.snapshot), n.db.inbox, id);
    var row := m.db.inbox[id];
    HandlerDone(p.handlers, Ids(p.snapshot), waiting, p.begun, n.db.inbox, id, row);
    UndeliveredUntilCompleted(n.db.inbox, id);
    ClimbKeepsTables(digest, n.db, n.log, id, row);
    SnapshotFrame(p.snapshot, p.next, n.db.inbox, id, row);
    RecoveredFrame(p.snapshot[..p.next], p.peers, p.published, n.db.inbox, n.log, id, row, [id]);
    assert forall x :: x in waiting ==> x in Ids(p.snapshot);
    ClaimedOntoBus(p.published, waiting, waiting, n.db.inbox, id, row);
  }

  // ----- completion -----------------------------------------------------------

  lemma ReplyTextIsSendable(content: string)
    ensures Strip(ReplyText(content)) != "" && |ReplyText(content)| <= MAX_CONTENT
  {
    StrippedStartsWithText(content);
    var text := Truncate(Strip(content), MAX_CONTENT);
    if text != "" {
      assert text[0] == Strip(content)[0];
      TextWithFirstCharIsNotBlank(text);
    } else {
      assert NO_RESPONSE[0] == 'T';
      TextWithFirstCharIsNotBlank(NO_RESPONSE);
    }
  }

  /** A reply whose result id is taken changes only the history. */
  lemma LaterReply(digest: Digest, db: Db, log: seq<Event>, id: Id, content: string)
    requires TablesOk(digest, db, log) && ResultId(digest, id) in db.outbox
    requires id in db.inbox && db.inbox[id].state == Completed
    ensures TablesOk(digest, db, log + [Replied(id, content)])
  {
    hide OutboxOk, InboxOk, ResultId, Reports;
    forall other
      ensures FirstReply(log + [Replied(id, content)], other) ==
              if FirstReply(log, other).None? && other == id then Some(content) else FirstReply(log, other)
    {
      FirstReplyExtends(log, [Replied(id, content)], other);
    }
  }

  /** The first reply of a completed row enters the outbox under its own result id. */
  lemma NewReplyRow(digest: Digest, db: Db, log: seq<Event>, id: Id, content: string, row: OutRow)
    requires TablesOk(digest, db, log) && id in db.inbox && db.inbox[id].state == Completed
    requires FirstReply(log, id).None? && ResultId(digest, id) !in db.outbox
    requires LetterOk(digest, ResultId(digest, id), row.letter) && AttemptsOk(row)
    requires row.letter.kind == Reply && row.letter.replyTo == Some(id)
    requires row.letter.peer == db.inbox[id].job.sender && Reports(content, row.letter.content)
    ensures var sent := db.(outbox := db.outbox[ResultId(digest, id) := row]);
            TablesOk(digest, sent, log + [Replied(id, content)]) && Evolves(db, sent)
  {
    hide InboxOk, LetterOk, AttemptsOk, ResultId, Reports;
    forall other
      ensures FirstReply(log + [Replied(id, content)], other) ==
              if other == id then Some(content) else FirstReply(log, other)
    {
      FirstReplyExtends(log, [Replied(id, content)], other);
    }
  }

  /** A request that was replied to has its reply in the outbox exactly if no other took its result id. */
  lemma ReplyIsSentIff(digest: Digest, db: Db, log: seq<Event>, id: Id)
    requires TablesOk(digest, db, log) && FirstReply(log, id).Some?
    ensures HasReplyRow(digest, db.outbox, id) <==> !IdTaken(digest, db.inbox, db.outbox, id)
  {
    hide InboxOk, BeganOk, ResultId;
    var rid := ResultId(digest, id);
    WorkAndResultIdsAreDisjoint(digest, id);
    OutboxRowOk(digest, db.outbox, rid);
    var other := db.outbox[rid].letter.replyTo.value;
    assert other in db.inbox && HasReplyRow(digest, db.outbox, other);
  }

  lemma UntakenMeansUnreplied(digest: Digest, db: Db, log: seq<Event>, id: Id)
    requires TablesOk(digest, db, log) && ResultId(digest, id) !in db.outbox
    ensures FirstReply(log, id).None?
  {
    hide OutboxOk, InboxOk, BeganOk, RepliesOk, ResultId;
  }

  function ReplyLetter(job: Job, id: Id, content: string, now: int): Letter {
    Letter(job.sender, ReplyText(content), Some(id), job.hops, Reply, now, None, None, None)
  }

  lemma ReplyLetterFits(digest: Digest, inbox: map<Id, InRow>, id: Id, content: string, now: int)
    requires InboxOk(inbox) && id in inbox
    ensures LetterOk(digest, ResultId(digest, id), ReplyLetter(inbox[id].job, id, content, now))
  {
    ReplyTextIsSendable(content);
    ResultIdsMeetIff(digest, id, id);
  }

  /** What `Complete` does, as two writes: the row is closed, then its reply is sent if it is the first. */
  lemma CompleteInTwoWrites(db: Db, peers: Peers, digest: Digest, id: Id, content: string, now: int)
    requires id in db.inbox && db.inbox[id].job.kind == Work
    ensures var row := db.inbox[id];
            var closed := db.(inbox := db.inbox[id := row.(state := Completed, delivered := true)]);
            var rid := ResultId(digest, id);
            Complete(db, peers, digest, id, content, now) ==
              if row.job.sender !in peers || rid in db.outbox then closed
              else closed.(outbox := db.outbox[rid :=
                     OutRow(ReplyLetter(row.job, id, content, now), Pending, 0, now, None, None)])
  {
  }

  lemma JobIsWork(inbox: map<Id, InRow>, id: Id)
    requires InboxOk(inbox) && id in inbox
    ensures inbox[id].job.kind == Work
  {
  }

  lemma CompleteKeepsTables(digest: Digest, db: Db, log: seq<Event>, peers: Peers, id: Id, content: string, now: int)
    requires TablesOk(digest, db, log) && id in db.inbox
    ensures var done := Complete(db, peers, digest, id, content, now);
            TablesOk(digest, done, log + CompletionEvents(db, peers, id, content)) && Evolves(db, done)
    ensures Answers(db, peers, id) ==>
              FirstReply(log + CompletionEvents(db, peers, id, content), id) ==
              if FirstReply(log, id).Some? then FirstReply(log, id) else Some(content)
  {
    ReplyTextReports(content);
    hide OutboxOk, BeganOk, RepliesOk, RepliedOk, InboxOk, LetterOk, Evolves, Complete, ReplyText, ResultId, Reports;
    JobIsWork(db.inbox, id);
    CompleteInTwoWrites(db, peers, digest, id, content, now);
    var rid, row := ResultId(digest, id), db.inbox[id];
    var closed := db.(inbox := db.inbox[id := row.(state := Completed, delivered := true)]);
    ClimbKeepsTables(digest, db, log, id, closed.inbox[id]);
    FirstReplyExtends(log, CompletionEvents(db, peers, id, content), id);
    if row.job.sender !in peers {
      assert log + [] == log;
    } else if rid in db.outbox {
      LaterReply(digest, closed, log, id, content);
    } else {
      UntakenMeansUnreplied(digest, db, log, id);
      ReplyLetterFits(digest, db.inbox, id, content, now);
      var sent := Complete(db, peers, digest, id, content, now);
      NewReplyRow(digest, closed, log, id, content, sent.outbox[rid]);
      EvolvesIsTransitive(db, closed, sent);
    }
  }

  lemma CompletionKeepsProcess(p: Process, db: Db, log: seq<Event>, peers: Peers, digest: Digest, id: Id,
                               content: string, now: int)
    requires ProcessOk(p, db, log) && id in db.inbox && db.inbox[id].state != Received
    ensures ProcessOk(p, Complete(db, peers, digest, id, content, now),
                      log + CompletionEvents(db, peers, id, content))
  {
    hide BusOk, SnapshotOk, HandlersOk, NothingForgotten, BegunOk, BatchOk, ReplyText;
    var done, log' := Complete(db, peers, digest, id, content, now), log + CompletionEvents(db, peers, id, content);
    if p.Down? {
    } else if db.inbox[id].job.kind == Work {
      var closed := db.(inbox := db.inbox[id := db.inbox[id].(state := Completed, delivered := true)]);
      ClimbKeepsProcess(p, db, log, id, closed.inbox[id]);
      forall other ensures FirstReply(log, other).Some? ==> FirstReply(log', other) == FirstReply(log, other) {
        FirstReplyExtends(log, CompletionEvents(db, peers, id, content), other);
      }
      var rid := ResultId(digest, id);
      if rid !in db.outbox && done.outbox != db.outbox {
        BatchFrame(p.batch, db.outbox, rid, done.outbox[rid]);
      }
    } else {
      assert log' == log;
    }
  }

  lemma CompleteKeeps(digest: Digest, n: Node, id: Id, content: string, now: int, m: Node)
    requires CoreOk(digest, n) && Completes(n, digest, id, content, now, m)
    ensures Keeps(digest, n, m)
  {
    hide TablesOk, ProcessOk, Evolves, Complete, CompletionEvents;
    assert id in n.db.inbox && n.db.inbox[id].state != Received by { BegunRow(n, id); }
    CompleteKeepsTables(digest, n.db, n.log, n.process.peers, id, content, now);
    CompletionKeepsProcess(n.process, n.db, n.log, n.process.peers, digest, id, content, now);
  }

  lemma BegunRow(n: Node, id: Id)
    requires n.process.Up? && ProcessOk(n.process, n.db, n.log) && id in n.process.begun
    ensures UnderWay(n.db.inbox, id)
  {
  }

  // ----- recovery -------------------------------------------------------------

  lemma DistinctAt<T>(s: seq<T>, k: nat)
    requires k < |s| && Distinct(s)
    ensures s[k..] == [s[k]] + s[k + 1..] && s[k] in s && s[k] !in s[k + 1..]
    ensures forall i :: 0 <= i < |s| && i != k ==> s[i] != s[k]
  {
    assert forall j :: k < j < |s| ==> s[j] == s[k + 1..][j - k - 1];
  }

  lemma WaitingHead(snapshot: seq<(Id, InRow)>, next: nat)
    requires next < |snapshot| && Distinct(Ids(snapshot))
    ensures Waiting(snapshot, next) == [snapshot[next].0] + Waiting(snapshot, next + 1)
    ensures snapshot[next].0 in Ids(snapshot)
    ensures snapshot[next].0 !in Waiting(snapshot, next + 1)
    ensures forall i :: 0 <= i < |snapshot| && i != next ==> snapshot[i].0 != snapshot[next].0
  {
    var ids := Ids(snapshot);
    DistinctAt(ids, next);
    forall i | 0 <= i < |snapshot| && i != next ensures snapshot[i].0 != snapshot[next].0 {
      assert ids[i] == snapshot[i].0;
    }
  }

  lemma AdvanceSnapshot(snapshot: seq<(Id, InRow)>, next: nat, inbox: map<Id, InRow>, row: InRow)
    requires SnapshotOk(snapshot, next, inbox) && next < |snapshot|
    requires var id := snapshot[next].0;
             id in inbox && inbox[id].job == row.job && Rank(inbox[id].state) <= Rank(row.state)
    ensures SnapshotOk(snapshot, next + 1, inbox[snapshot[next].0 := row])
  {
    WaitingHead(snapshot, next);
    var inbox' := inbox[snapshot[next].0 := row];
    forall i | 0 <= i < |snapshot| ensures SnapshotRowOk(inbox', snapshot[i].0, snapshot[i].1, next + 1 <= i) {
      assert SnapshotRowOk(inbox, snapshot[i].0, snapshot[i].1, next <= i);
    }
  }

  lemma AdvanceOthers(p: Process, inbox: map<Id, InRow>, row: InRow)
    requires p.Up? && p.next < |p.snapshot| && SnapshotOk(p.snapshot, p.next, inbox)
    requires HandlersOk(p.handlers, Ids(p.snapshot), inbox) && BegunOk(p.begun, inbox)
    requires NothingForgotten(p.handlers, Waiting(p.snapshot, p.next), inbox)
    requires var id := p.snapshot[p.next].0;
             id in inbox && Rank(inbox[id].state) <= Rank(row.state) && row.state != Received
    ensures var inbox' := inbox[p.snapshot[p.next].0 := row];
            && HandlersOk(p.handlers, Ids(p.snapshot), inbox') && BegunOk(p.begun, inbox')
            && NothingForgotten(p.handlers, Waiting(p.snapshot, p.next + 1), inbox')
  {
    WaitingHead(p.snapshot, p.next);
  }

  lemma AdvanceRecovered(p: Process, inbox: map<Id, InRow>, log: seq<Event>, row: InRow, more: seq<Id>,
                         log': seq<Event>)
    requires p.Up? && p.next < |p.snapshot|
    requires RecoveredOk(p.snapshot[..p.next], p.peers, p.published, inbox, log)
    requires var (id, snap) := p.snapshot[p.next];
             && id in inbox && Rank(inbox[id].state) <= Rank(row.state)
             && Recovered(p.peers, p.published + more, inbox[id := row], log', id, snap)
    requires forall id :: FirstReply(log, id).Some? ==> FirstReply(log', id) == FirstReply(log, id)
    ensures RecoveredOk(p.snapshot[..p.next + 1], p.peers, p.published + more,
                        inbox[p.snapshot[p.next].0 := row], log')
  {
    var (id, _) := p.snapshot[p.next];
    var passed := p.snapshot[..p.next + 1];
    forall i | 0 <= i < |passed|
      ensures Recovered(p.peers, p.published + more, inbox[id := row], log', passed[i].0, passed[i].1)
    {
      if i < p.next {
        assert passed[i] == p.snapshot[..p.next][i];
        assert Recovered(p.peers, p.published, inbox, log, passed[i].0, passed[i].1);
      }
    }
  }

  lemma AdvanceBus(p: Process, inbox: map<Id, InRow>, row: InRow)
    requires p.Up? && p.next < |p.snapshot| && Distinct(Ids(p.snapshot))
    requires BusOk(p.published, Waiting(p.snapshot, p.next), inbox)
    requires var id := p.snapshot[p.next].0;
             id in inbox && Rank(inbox[id].state) <= Rank(row.state) && Rank(Queued) <= Rank(row.state)
    ensures var (id, waiting) := (p.snapshot[p.next].0, Waiting(p.snapshot, p.next + 1));
            && BusOk(p.published, waiting, inbox[id := row])
            && BusOk(p.published + [id], waiting, inbox[id := row])
  {
    WaitingHead(p.snapshot, p.next);
    assert p.snapshot[p.next].0 !in p.published;
  }

  /** The recovery loop passes one row; `row` is what the table holds for it afterwards. */
  lemma RecoverAdvances(p: Process, db: Db, log: seq<Event>, row: InRow, outbox': map<Id, OutRow>,
                        log': seq<Event>, more: seq<Id>)
    requires p.Up? && ProcessOk(p, db, log) && p.next < |p.snapshot|
    requires var (id, snap) := p.snapshot[p.next];
             && id in db.inbox && row.job == db.inbox[id].job && Rank(db.inbox[id].state) <= Rank(row.state)
             && row.state != Received && (more == [] || more == [id])
             && Recovered(p.peers, p.published + more, db.inbox[id := row], log', id, snap)
    requires BatchOk(p.batch, outbox')
    requires forall id :: FirstReply(log, id).Some? ==> FirstReply(log', id) == FirstReply(log, id)
    ensures ProcessOk(p.(next := p.next + 1, published := p.published + more),
                      Db(outbox', db.inbox[p.snapshot[p.next].0 := row], db.results), log')
  {
    hide BusOk, HandlersOk, NothingForgotten, BegunOk, BatchOk, RecoveredOk, Recovered;
    assert Distinct(Ids(p.snapshot));
    AdvanceSnapshot(p.snapshot, p.next, db.inbox, row);
    AdvanceOthers(p, db.inbox, row);
    AdvanceRecovered(p, db.inbox, log, row, more, log');
    AdvanceBus(p, db.inbox, row);
    if more == [] { assert p.published + more == p.published; }
  }

  lemma SnapshotHead(n: Node)
    requires n.process.Up? && ProcessOk(n.process, n.db, n.log) && n.process.next < |n.process.snapshot|
    ensures var (id, row) := n.process.snapshot[n.process.next];
            && SnapshotRowOk(n.db.inbox, id, row, true)
            && BatchOk(n.process.batch, n.db.outbox)
  {
  }

  /** A started row that recovery reaches has no reply yet. */
  lemma StartedIsUnreplied(digest: Digest, n: Node)
    requires NodeOk(digest, n) && n.process.Up? && n.process.next < |n.process.snapshot|
    requires n.process.snapshot[n.process.next].1.state == Started
    ensures FirstReply(n.log, n.process.snapshot[n.process.next].0).None?
  {
    hide OutboxOk, InboxOk, BeganOk, RepliesOk, ProcessOk, ResultId, FirstReply;
    assert StartedWait(n.process.snapshot, n.process.next, n.process.begun, n.db.inbox);
  }

  lemma RecoverInterrupted(digest: Digest, n: Node, now: int, m: Node)
    requires NodeOk(digest, n) && Recovers(n, digest, now, m)
    requires n.process.snapshot[n.process.next].1.state == Started
    ensures Keeps(digest, n, m)
  {
    hide TablesOk, ProcessOk, StartedOk, BatchOk, SnapshotOk, Evolves, ReplyText, FirstReply;
    StartedIsUnreplied(digest, n);
    var (id, snap) := n.process.snapshot[n.process.next];
    SnapshotHead(n);
    CompleteKeepsTables(digest, n.db, n.log, n.process.peers, id, INTERRUPTED, now);
    forall other ensures FirstReply(n.log, other).Some? ==> FirstReply(m.log, other) == FirstReply(n.log, other) {
      FirstReplyExtends(n.log, CompletionEvents(n.db, n.process.peers, id, INTERRUPTED), other);
    }
    assert n.db.inbox[id].job.kind == Work by { InboxKinds(digest, n, id); }
    var rid := ResultId(digest, id);
    if m.db.outbox != n.db.outbox {
      BatchFrame(n.process.batch, n.db.outbox, rid, m.db.outbox[rid]);
    }
    assert n.process.published + [] == n.process.published;
    RecoverAdvances(n.process, n.db, n.log, m.db.inbox[id], m.db.outbox, m.log, []);
    assert m.db == Db(m.db.outbox, n.db.inbox[id := m.db.inbox[id]], n.db.results);
  }

  lemma InboxKinds(digest: Digest, n: Node, id: Id)
    requires TablesOk(digest, n.db, n.log) && id in n.db.inbox
    ensures n.db.inbox[id].job.kind == Work
    ensures n.db.inbox[id].state != Completed ==> !n.db.inbox[id].delivered
  {
  }

  lemma RecoverUnstarted(digest: Digest, n: Node, now: int, m: Node)
    requires CoreOk(digest, n) && Recovers(n, digest, now, m)
    requires n.process.snapshot[n.process.next].1.state != Started
    ensures Keeps(digest, n, m)
  {
    hide TablesOk, ProcessOk, BatchOk, SnapshotOk, Evolves;
    var (id, snap) := n.process.snapshot[n.process.next];
    SnapshotHead(n);
    InboxKinds(digest, n, id);
    ClimbKeepsTables(digest, n.db, n.log, id, m.db.inbox[id]);
    RecoverAdvances(n.process, n.db, n.log, m.db.inbox[id], n.db.outbox, n.log, [id]);
    assert m.db == n.db.(inbox := n.db.inbox[id := m.db.inbox[id]]);
    assert m.db == Db(n.db.outbox, n.db.inbox[id := m.db.inbox[id]], n.db.results);
  }

  // ----- starting and stopping -------------------------------------------------

  /** Rows this release wrote never look like an old release's: the upgrade finds nothing to do. */
  lemma UpgradeFindsNothing(digest: Digest, db: Db, log: seq<Event>)
    requires TablesOk(digest, db, log)
    ensures Upgrade(db) == db
  {
    hide OutboxOk, BeganOk, RepliesOk, RepliedOk;
    assert Upgrade(db).inbox == db.inbox;
  }

  lemma BootKeeps(digest: Digest, n: Node, peers: Peers, rows: seq<(Id, InRow)>, m: Node)
    requires CoreOk(digest, n) && Boots(n, peers, rows, m)
    ensures Keeps(digest, n, m)
  {
    hide TablesOk, StartedOk, Reports, Upgrade;
    UpgradeFindsNothing(digest, n.db, n.log);
    assert forall i :: 0 <= i < |rows| ==> Ids(rows)[i] == rows[i].0;
    assert Waiting(rows, 0) == Ids(rows);
    NothingChanged(n.db);
    forall id | id in n.db.inbox && n.db.inbox[id].state == Received ensures id in Waiting(rows, 0) {
      var i :| 0 <= i < |rows| && rows[i].0 == id;
      assert Ids(rows)[i] == id;
    }
  }

  lemma LifecycleKeeps(digest: Digest, n: Node, m: Node)
    requires CoreOk(digest, n) && (FinishesStart(n, m) || m == n.(process := Down))
    ensures Keeps(digest, n, m)
  {
    hide TablesOk, BusOk, SnapshotOk, RecoveredOk, HandlersOk, NothingForgotten, BegunOk, BatchOk;
  }

  // ----- what was started waits for recovery --------------------------------------------

  /** Whoever else's row changes, and whoever else begins. */
  lemma StartedFrame(p: Process, inbox: map<Id, InRow>, id: Id, row: InRow, begun: set<Id>)
    requires p.Up? && StartedOk(p, inbox) && begun <= p.begun + {id}
    requires id in inbox ==> inbox[id].state != Started || id in p.begun
    ensures StartedOk(p.(begun := begun), inbox[id := row])
  {
  }

  lemma CompletingKeepsStarted(n: Node, digest: Digest, id: Id, content: string, now: int, m: Node)
    requires StartedOk(n.process, n.db.inbox) && Completes(n, digest, id, content, now, m)
    ensures StartedOk(m.process, m.db.inbox)
  {
    hide StartedWait, ReplyText, ResultId;
    if id in n.db.inbox && n.db.inbox[id].job.kind == Work {
      StartedFrame(n.process, n.db.inbox, id, m.db.inbox[id], n.process.begun);
      assert m.db.inbox == n.db.inbox[id := m.db.inbox[id]];
    } else {
      assert m.db.inbox == n.db.inbox;
    }
  }

  lemma RecoveringKeepsStarted(digest: Digest, n: Node, now: int, m: Node)
    requires NodeOk(digest, n) && Recovers(n, digest, now, m)
    ensures StartedOk(m.process, m.db.inbox)
  {
    hide TablesOk, RecoverRow, BusOk, RecoveredOk, HandlersOk, BegunOk, NothingForgotten, BatchOk;
    assert Distinct(Ids(n.process.snapshot)) by { hide StartedOk; }
    OnlyOneRowRecovers(n, digest, now, m);
    hide ProcessOk, Recovers;
    WaitingHead(n.process.snapshot, n.process.next);
  }

  lemma OnlyOneRowRecovers(n: Node, digest: Digest, now: int, m: Node)
    requires Recovers(n, digest, now, m)
    ensures m.process.Up? && m.process.snapshot == n.process.snapshot && m.process.next == n.process.next + 1
    ensures m.process.begun == n.process.begun
    ensures forall id :: id != n.process.snapshot[n.process.next].0 && id in n.db.inbox ==>
              id in m.db.inbox && m.db.inbox[id] == n.db.inbox[id]
  {
    hide ReplyText, ResultId;
  }

  lemma PublishingKeepsStarted(digest: Digest, n: Node, id: Id, m: Node)
    requires NodeOk(digest, n) && PublishesStored(n, id, m)
    ensures StartedOk(m.process, m.db.inbox)
  {
    HandlerOwnsReceived(n.process.handlers, Ids(n.process.snapshot), n.db.inbox, id);
    hide TablesOk, ProcessOk;
    StartedFrame(n.process, n.db.inbox, id, m.db.inbox[id], n.process.begun);
  }

  lemma BeginningKeepsStarted(n: Node, id: Id, m: Node)
    requires StartedOk(n.process, n.db.inbox) && Begins(n, id, m)
    ensures StartedOk(m.process, m.db.inbox)
  {
    if m != n { StartedFrame(n.process, n.db.inbox, id, m.db.inbox[id], m.process.begun); }
  }

  lemma BootingKeepsStarted(n: Node, peers: Peers, rows: seq<(Id, InRow)>, m: Node)
    requires Boots(n, peers, rows, m)
    ensures StartedOk(m.process, m.db.inbox)
  {
  }

  lemma StoringKeepsStarted(n: Node, id: Id, sender: PeerId, content: string, replyTo: Option<Id>, hops: int,
                            now: int, m: Node)
    requires StartedOk(n.process, n.db.inbox) && Stores(n, id, sender, content, replyTo, hops, now, m)
    ensures StartedOk(m.process, m.db.inbox)
  {
    if m != n { StartedFrame(n.process, n.db.inbox, id, m.db.inbox[id], n.process.begun); }
  }

  lemma StepKeepsStarted(digest: Digest, n: Node, a: Action, m: Node)
    requires NodeOk(digest, n) && Step(n, digest, a, m)
    ensures StartedOk(m.process, m.db.inbox)
  {
    hide TablesOk, ProcessOk, StartedWait, Boots, Recovers, Stores, PublishesStored, Begins, Completes, PublicationOf;
    hide Accepts, Announces, SetsPublished, Polls, SettlesHead, FinishesStart, Submits;
    match a
    case Boot(peers, rows) => BootingKeepsStarted(n, peers, rows, m);
    case Recover(now) => RecoveringKeepsStarted(digest, n, now, m);
    case Store(id, sender, content, replyTo, hops, now) =>
      StoringKeepsStarted(n, id, sender, content, replyTo, hops, now, m);
    case PublishStored(id) => PublishingKeepsStarted(digest, n, id, m);
    case BeginWork(id) => BeginningKeepsStarted(n, id, m);
    case CompleteWork(id, content, now) => CompletingKeepsStarted(n, digest, id, content, now, m);
    case Submit(id, peer, content, replyTo, hops, channel, chat, session, now) =>
      SubmittingLeavesInbox(n, id, peer, content, replyTo, hops, channel, chat, session, now, m);
    case _ => OthersLeaveInbox(digest, n, a, m);
  }

  lemma OthersLeaveInbox(digest: Digest, n: Node, a: Action, m: Node)
    requires Step(n, digest, a, m)
    requires !a.Boot? && !a.Recover? && !a.Store? && !a.PublishStored? && !a.BeginWork? && !a.CompleteWork?
    requires !a.Submit?
    ensures m.db.inbox == n.db.inbox
    ensures m.process.Up? ==>
              && n.process.Up? && m.process.snapshot == n.process.snapshot && m.process.next == n.process.next
              && m.process.begun == n.process.begun
  {
    hide PublicationOf, IsPendingBatch, RetryDelay;
  }

  lemma SubmittingLeavesInbox(n: Node, id: Id, peer: PeerId, content: string, replyTo: Option<Id>, hops: int,
                              channel: Option<string>, chat: Option<string>, session: Option<string>, now: int,
                              m: Node)
    requires Submits(n, id, peer, content, replyTo, hops, channel, chat, session, now, m)
    ensures m.process == n.process && m.db.inbox == n.db.inbox
  {
  }

  /** The invariant is kept by every step, and tables only climb. */
  lemma StepKeeps(digest: Digest, n: Node, a: Action, m: Node)
    requires NodeOk(digest, n) && Step(n, digest, a, m)
    ensures NodeOk(digest, m) && Advances(n, m)
  {
    hide Step, TablesOk, ProcessOk, StartedOk, Advances;
    StepKeepsCore(digest, n, a, m);
    StepKeepsStarted(digest, n, a, m);
  }

  lemma StepKeepsCore(digest: Digest, n: Node, a: Action, m: Node)
    requires NodeOk(digest, n) && Step(n, digest, a, m)
    ensures Keeps(digest, n, m)
  {
    hide TablesOk, ProcessOk, StartedOk;
    assert CoreOk(digest, n);
    hide NodeOk, CoreOk, Keeps, Boots, Recovers, FinishesStart, Submits, Stores, PublishesStored, Begins, Completes;
    hide Accepts, Announces, SetsPublished, Polls, SettlesHead;
    match a
    case Boot(peers, rows) => BootKeeps(digest, n, peers, rows, m);
    case Recover(now) => RecoverKeeps(digest, n, now, m);
    case FinishStart => LifecycleKeeps(digest, n, m);
    case Crash => LifecycleKeeps(digest, n, m);
    case Submit(id, peer, content, replyTo, hops, channel, chat, session, now) =>
      SubmitKeeps(digest, n, id, peer, content, replyTo, hops, channel, chat, session, now, m);
    case Store(id, sender, content, replyTo, hops, now) =>
      StoreKeeps(digest, n, id, sender, content, replyTo, hops, now, m);
    case PublishStored(id) => PublishStoredKeeps(digest, n, id, m);
    case BeginWork(id) => BeginKeeps(digest, n, id, m);
    case CompleteWork(id, content, now) => CompleteKeeps(digest, n, id, content, now, m);
    case AcceptResult(id, sender, request, content, now) =>
      AcceptKeeps(digest, n, id, sender, request, content, now, m);
    case Announce(id) => AnnounceKeeps(digest, n, id, m);
    case SetPublished(id) => SetPublishedKeeps(digest, n, id, m);
    case Poll(due, now) => PollKeeps(digest, n, due, now, m);
    case HeadAcked => SettleKeeps(digest, n, a, m);
    case HeadRetried(_, _) => SettleKeeps(digest, n, a, m);
    case HeadUnpaired => SettleKeeps(digest, n, a, m);
  }

  lemma RecoverKeeps(digest: Digest, n: Node, now: int, m: Node)
    requires NodeOk(digest, n) && Recovers(n, digest, now, m)
    ensures Keeps(digest, n, m)
  {
    hide TablesOk, ProcessOk, StartedOk;
    assert CoreOk(digest, n);
    hide NodeOk, CoreOk, RecoverRow, Keeps;
    if n.process.snapshot[n.process.next].1.state == Started {
      RecoverInterrupted(digest, n, now, m);
    } else {
      RecoverUnstarted(digest, n, now, m);
    }
  }
}
