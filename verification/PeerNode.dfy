/**
 One instance as a state machine. A step is one transaction, or one stretch of
 code between two awaits; a crash may come between any two steps and forgets
 everything but the tables.
 */
module PeerNode {
  import opened Wrappers
  import opened PeerTypes
  import opened PeerStore

  /** What an instance has done, in order. It outlives crashes; the code never reads it. */
  datatype Event =
    | Began(id: Id)                                        // `begin_inbox` returned true
    | Replied(id: Id, content: string)                     // a completion whose sender is paired
    | Announced(result: Id, answer: Answer)                 // a result handed to the requester's channel

  /**
   The volatile half of an instance.
   `snapshot` and `next`: the rows `start` read and how many it has recovered;
   `handlers`: receive tasks that stored a row and have not published it yet;
   `published`: the work ids put on the bus since the process started;
   `begun`: the ids whose `begin_inbox` returned true in this process;
   `batch`: rows the retry loop read and has not settled yet;
   `announced`: results this process handed to a channel, which it may then mark.
   */
  datatype Process =
    | Down
    | Up(peers: Peers, snapshot: seq<(Id, InRow)>, next: nat, retrying: bool,
         handlers: set<Id>, published: seq<Id>, begun: set<Id>, batch: seq<(Id, OutRow)>, announced: set<Id>)

  datatype Node = Node(db: Db, log: seq<Event>, process: Process)

  datatype Action =
    | Boot(peers: Peers, rows: seq<(Id, InRow)>)
    | Recover(now: int)
    | FinishStart
    | Crash
    | Submit(id: Id, peer: PeerId, content: string, replyTo: Option<Id>, hops: int,
             channel: Option<string>, chat: Option<string>, session: Option<string>, now: int)
    | Store(id: Id, sender: PeerId, content: string, replyTo: Option<Id>, hops: int, now: int)
    | PublishStored(id: Id)
    | BeginWork(id: Id)
    | CompleteWork(id: Id, content: string, now: int)
    | AcceptResult(id: Id, sender: PeerId, request: Id, content: string, now: int)
    | Announce(id: Id)
    | SetPublished(id: Id)
    | Poll(due: seq<(Id, OutRow)>, now: int)
    | HeadAcked
    | HeadRetried(error: string, now: int)
    | HeadUnpaired

  function CompletionEvents(db: Db, peers: Peers, id: Id, content: string): seq<Event> {
    if Answers(db, peers, id) then [Replied(id, content)] else []
  }

  /** One turn of the recovery loop in `start`. */
  function RecoverRow(n: Node, digest: Digest, now: int): Node
    requires n.process.Up? && n.process.next < |n.process.snapshot|
  {
    var p := n.process;
    var (id, row) := p.snapshot[p.next];
    if row.state == Started then
      Node(Complete(n.db, p.peers, digest, id, INTERRUPTED, now),
           n.log + CompletionEvents(n.db, p.peers, id, INTERRUPTED),
           p.(next := p.next + 1))
    else
      var (db, claimed) := Claim(n.db, id);
      Node(db, n.log,
           p.(next := p.next + 1,
              published := if claimed || row.state == Queued then p.published + [id] else p.published))
  }

  // ----- the steps ------------------------------------------------------------

  /** The process starts: the tables are upgraded and read before any connection is accepted. */
  ghost predicate Boots(n: Node, peers: Peers, rows: seq<(Id, InRow)>, m: Node) {
    && n.process.Down?
    && IsPendingInbox(Upgrade(n.db), rows)
    && m == Node(Upgrade(n.db), n.log, Up(peers, rows, 0, false, {}, [], {}, [], {}))
  }

  ghost predicate Recovers(n: Node, digest: Digest, now: int, m: Node) {
    && n.process.Up? && n.process.next < |n.process.snapshot|
    && m == RecoverRow(n, digest, now)
  }

  ghost predicate FinishesStart(n: Node, m: Node) {
    && n.process.Up? && n.process.next == |n.process.snapshot|
    && m == n.(process := n.process.(retrying := true))
  }

  ghost predicate Submits(n: Node, id: Id, peer: PeerId, content: string, replyTo: Option<Id>, hops: int,
                          channel: Option<string>, chat: Option<string>, session: Option<string>, now: int,
                          m: Node)
  {
    && n.process.Up? && IsUuid(id) && 0 <= hops && (replyTo.Some? ==> |replyTo.value| <= MAX_ID)
    && var e := Enqueue(n.db, n.process.peers, id, now, peer, content, replyTo, hops, channel, chat, session);
       m == if e.Success? then n.(db := e.value) else n
  }

  ghost predicate Stores(n: Node, id: Id, sender: PeerId, content: string, replyTo: Option<Id>, hops: int,
                         now: int, m: Node)
  {
    && n.process.Up? && 1 <= hops <= MAX_REPLY_HOPS && |id| <= MAX_ID
    && var (db, created) := StoreInbox(n.db, id, sender, content, replyTo, hops, now);
       m == if created then Node(db, n.log, n.process.(handlers := n.process.handlers + {id})) else n
  }

  ghost predicate PublishesStored(n: Node, id: Id, m: Node) {
    && n.process.Up? && id in n.process.handlers
    && var (db, claimed) := Claim(n.db, id);
       m == Node(db, n.log,
                 n.process.(handlers := n.process.handlers - {id},
                            published := if claimed then n.process.published + [id] else n.process.published))
  }

  ghost predicate Begins(n: Node, id: Id, m: Node) {
    && n.process.Up?
    && var (db, ok) := Begin(n.db, id);
       m == if ok then Node(db, n.log + [Began(id)], n.process.(begun := n.process.begun + {id})) else n
  }

  ghost predicate Completes(n: Node, digest: Digest, id: Id, content: string, now: int, m: Node) {
    && n.process.Up? && id in n.process.begun
    && m == Node(Complete(n.db, n.process.peers, digest, id, content, now),
                 n.log + CompletionEvents(n.db, n.process.peers, id, content), n.process)
  }

  ghost predicate Accepts(n: Node, id: Id, sender: PeerId, request: Id, content: string, now: int, m: Node) {
    n.process.Up? && m == n.(db := Accept(n.db, id, sender, request, content, now))
  }

  ghost predicate Announces(n: Node, id: Id, m: Node) {
    && n.process.Up? && PublicationOf(n.db, id).Send?
    && m == n.(log := n.log + [Announced(id, n.db.results[id].answer)],
               process := n.process.(announced := n.process.announced + {id}))
  }

  ghost predicate SetsPublished(n: Node, id: Id, m: Node) {
    n.process.Up? && id in n.process.announced && m == n.(db := MarkPublished(n.db, id))
  }

  ghost predicate Polls(n: Node, due: seq<(Id, OutRow)>, now: int, m: Node) {
    && n.process.Up? && n.process.retrying && n.process.batch == []
    && IsPendingBatch(n.db, now, due)
    && m == n.(process := n.process.(batch := due))
  }

  /** A delivery of the row at the head of the batch ends: acknowledged, failed, or its peer is gone. */
  ghost predicate SettlesHead(n: Node, a: Action, m: Node) {
    && n.process.Up? && n.process.batch != [] && n.process.batch[0].1.attempts >= 0
    && var (id, row) := n.process.batch[0];
       && (a.HeadUnpaired? ==> row.letter.peer !in n.process.peers)
       && m.process == n.process.(batch := n.process.batch[1..])
       && m.log == n.log
       && m.db == match a
                  case HeadAcked => MarkAcked(n.db, id)
                  case HeadRetried(error, now) => MarkRetry(n.db, id, error, row.attempts, now)
                  case _ => MarkFailed(n.db, id, "peer pairing removed")
  }

  ghost predicate Step(n: Node, digest: Digest, a: Action, m: Node) {
    match a
    case Boot(peers, rows) => Boots(n, peers, rows, m)
    case Recover(now) => Recovers(n, digest, now, m)
    case FinishStart => FinishesStart(n, m)
    case Crash => m == n.(process := Down)
    case Submit(id, peer, content, replyTo, hops, channel, chat, session, now) =>
      Submits(n, id, peer, content, replyTo, hops, channel, chat, session, now, m)
    case Store(id, sender, content, replyTo, hops, now) => Stores(n, id, sender, content, replyTo, hops, now, m)
    case PublishStored(id) => PublishesStored(n, id, m)
    case BeginWork(id) => Begins(n, id, m)
    case CompleteWork(id, content, now) => Completes(n, digest, id, content, now, m)
    case AcceptResult(id, sender, request, content, now) => Accepts(n, id, sender, request, content, now, m)
    case Announce(id) => Announces(n, id, m)
    case SetPublished(id) => SetsPublished(n, id, m)
    case Poll(due, now) => Polls(n, due, now, m)
    case HeadAcked => SettlesHead(n, a, m)
    case HeadRetried(_, _) => SettlesHead(n, a, m)
    case HeadUnpaired => SettlesHead(n, a, m)
  }

  // ----- reading the log ----------------------------------------------------

  /** The content of the first completion of `id` whose sender was paired. */
  function FirstReply(log: seq<Event>, id: Id): Option<string> {
    if log == [] then None
    else if log[0].Replied? && log[0].id == id then Some(log[0].content)
    else FirstReply(log[1..], id)
  }

  lemma {:induction false} FirstReplyExtends(log: seq<Event>, more: seq<Event>, id: Id)
    ensures FirstReply(log, id).Some? ==> FirstReply(log + more, id) == FirstReply(log, id)
    ensures FirstReply(log, id).None? ==> FirstReply(log + more, id) == FirstReply(more, id)
  {
    if log == [] {
      assert log + more == more;
    } else {
      assert (log + more)[0] == log[0] && (log + more)[1..] == log[1..] + more;
      FirstReplyExtends(log[1..], more, id);
    }
  }

  // ----- what every reachable instance satisfies -----------------------------

  predicate AttemptsOk(row: OutRow) {
    0 <= row.attempts <= MAX_ATTEMPTS && (row.state == Pending ==> row.attempts < MAX_ATTEMPTS)
  }

  predicate LetterOk(digest: Digest, id: Id, letter: Letter) {
    && Sendable(id, letter)
    && (letter.kind == Work ==> IsUuid(id))
    && (letter.kind == Reply ==> id == ResultId(digest, letter.replyTo.value))
  }

  ghost predicate OutboxOk(digest: Digest, outbox: map<Id, OutRow>) {
    forall id :: id in outbox ==> LetterOk(digest, id, outbox[id].letter) && AttemptsOk(outbox[id])
  }

  ghost predicate InboxOk(inbox: map<Id, InRow>) {
    forall id :: id in inbox ==>
      && |id| <= MAX_ID && inbox[id].job.kind == Work && 1 <= inbox[id].job.hops <= MAX_REPLY_HOPS
      && (inbox[id].delivered ==> inbox[id].state == Completed)
  }

  predicate UnderWay(inbox: map<Id, InRow>, id: Id) {
    id in inbox && Rank(inbox[id].state) >= Rank(Started)
  }

  /** Execution began at most once per id, and only for rows now started or completed. */
  ghost predicate BeganOk(log: seq<Event>, inbox: map<Id, InRow>) {
    && (forall i :: 0 <= i < |log| && log[i].Began? ==> UnderWay(inbox, log[i].id))
    && (forall i, j :: 0 <= i < j < |log| && log[i].Began? && log[j].Began? ==> log[i].id != log[j].id)
  }

  /** The text reports the first reply to `id`. */
  predicate ReportsFirst(log: seq<Event>, id: Id, text: string) {
    FirstReply(log, id).Some? && Reports(FirstReply(log, id).value, text)
  }

  /** A reply row reports the first reply to the row it answers, back to that row's sender. */
  ghost predicate RepliesOk(log: seq<Event>, inbox: map<Id, InRow>, outbox: map<Id, OutRow>) {
    forall id :: id in outbox && outbox[id].letter.kind == Reply ==>
      var letter := outbox[id].letter;
      && letter.replyTo.Some? && letter.replyTo.value in inbox
      && letter.peer == inbox[letter.replyTo.value].job.sender
      && ReportsFirst(log, letter.replyTo.value, letter.content)
  }

  /** The outbox holds the reply to `id`. */
  predicate HasReplyRow(digest: Digest, outbox: map<Id, OutRow>, id: Id) {
    var rid := ResultId(digest, id);
    rid in outbox && outbox[rid].letter.kind == Reply && outbox[rid].letter.replyTo == Some(id)
  }

  /** Another request took the result id of `id`, as their shortened digests are the same. */
  ghost predicate IdTaken(digest: Digest, inbox: map<Id, InRow>, outbox: map<Id, OutRow>, id: Id) {
    exists other :: other in inbox && other != id && ResultId(digest, other) == ResultId(digest, id)
                    && HasReplyRow(digest, outbox, other)
  }

  /** Whatever was replied to is completed, and its result id is taken: by its own reply, or by a colliding one. */
  ghost predicate RepliedOk(digest: Digest, log: seq<Event>, inbox: map<Id, InRow>, outbox: map<Id, OutRow>) {
    forall id :: FirstReply(log, id).Some? ==>
      id in inbox && inbox[id].state == Completed && ResultId(digest, id) in outbox
  }

  ghost predicate Distinct<T>(s: seq<T>) {
    forall i, j :: 0 <= i < j < |s| ==> s[i] != s[j]
  }

  function Ids<T>(rows: seq<(Id, T)>): seq<Id> {
    seq(|rows|, i requires 0 <= i < |rows| => rows[i].0)
  }

  /** The ids recovery has not reached. */
  function Waiting(snapshot: seq<(Id, InRow)>, next: nat): seq<Id>
    requires next <= |snapshot|
  {
    Ids(snapshot)[next..]
  }

  /** The bus of one process: nothing is put on it twice, and only after being claimed. */
  ghost predicate BusOk(published: seq<Id>, waiting: seq<Id>, inbox: map<Id, InRow>) {
    && Distinct(published)
    && (forall id :: id in published ==>
          id in inbox && Rank(inbox[id].state) >= Rank(Queued) && id !in waiting)
  }

  predicate SnapshotRowOk(inbox: map<Id, InRow>, id: Id, row: InRow, waiting: bool) {
    && id in inbox && row.job == inbox[id].job && row.state != Completed
    && Rank(row.state) <= Rank(inbox[id].state)
    && (waiting && row.state == Received ==> inbox[id].state == Received)
  }

  ghost predicate SnapshotOk(snapshot: seq<(Id, InRow)>, next: nat, inbox: map<Id, InRow>) {
    && Distinct(Ids(snapshot))
    && (forall i :: 0 <= i < |snapshot| ==>
          SnapshotRowOk(inbox, snapshot[i].0, snapshot[i].1, next <= i))
  }

  /** What recovery owes to a row it has passed. */
  ghost predicate Recovered(peers: Peers, published: seq<Id>, inbox: map<Id, InRow>, log: seq<Event>,
                            id: Id, row: InRow)
  {
    if row.state == Started then
      && id in inbox && inbox[id].state == Completed
      && (row.job.sender in peers ==> FirstReply(log, id) == Some(INTERRUPTED))
    else id in published
  }

  ghost predicate RecoveredOk(passed: seq<(Id, InRow)>, peers: Peers, published: seq<Id>,
                              inbox: map<Id, InRow>, log: seq<Event>)
  {
    forall i :: 0 <= i < |passed| ==> Recovered(peers, published, inbox, log, passed[i].0, passed[i].1)
  }

  ghost predicate HandlersOk(handlers: set<Id>, snapshotIds: seq<Id>, inbox: map<Id, InRow>) {
    forall id :: id in handlers ==>
      id in inbox && inbox[id].state == Received && id !in snapshotIds
  }

  ghost predicate BegunOk(begun: set<Id>, inbox: map<Id, InRow>) {
    forall id :: id in begun ==> UnderWay(inbox, id)
  }

  /** Stored work always has someone left who will publish it. */
  ghost predicate NothingForgotten(handlers: set<Id>, waiting: seq<Id>, inbox: map<Id, InRow>) {
    forall id :: id in inbox && inbox[id].state == Received ==> id in handlers || id in waiting
  }

  ghost predicate BatchOk(batch: seq<(Id, OutRow)>, outbox: map<Id, OutRow>) {
    && Distinct(Ids(batch))
    && (forall i :: 0 <= i < |batch| ==>
          var (id, row) := batch[i];
          && id in outbox && row.letter == outbox[id].letter
          && row.attempts == outbox[id].attempts && 0 <= row.attempts < MAX_ATTEMPTS)
  }

  ghost predicate TablesOk(digest: Digest, db: Db, log: seq<Event>) {
    && OutboxOk(digest, db.outbox) && InboxOk(db.inbox) && BeganOk(log, db.inbox)
    && RepliesOk(log, db.inbox, db.outbox) && RepliedOk(digest, log, db.inbox, db.outbox)
  }

  ghost predicate ProcessOk(p: Process, db: Db, log: seq<Event>) {
    p.Up? ==>
      && p.next <= |p.snapshot|
      && BusOk(p.published, Waiting(p.snapshot, p.next), db.inbox)
      && SnapshotOk(p.snapshot, p.next, db.inbox)
      && RecoveredOk(p.snapshot[..p.next], p.peers, p.published, db.inbox, log)
      && HandlersOk(p.handlers, Ids(p.snapshot), db.inbox)
      && BegunOk(p.begun, db.inbox)
      && NothingForgotten(p.handlers, Waiting(p.snapshot, p.next), db.inbox)
      && BatchOk(p.batch, db.outbox)
  }

  /** What was started before this process came up stays so until recovery reaches it. */
  ghost predicate StartedWait(snapshot: seq<(Id, InRow)>, next: nat, begun: set<Id>, inbox: map<Id, InRow>) {
    forall i :: next <= i < |snapshot| && snapshot[i].1.state == Started ==>
      snapshot[i].0 in inbox && inbox[snapshot[i].0].state == Started && snapshot[i].0 !in begun
  }

  ghost predicate StartedOk(p: Process, inbox: map<Id, InRow>) {
    p.Up? ==> StartedWait(p.snapshot, p.next, p.begun, inbox)
  }

  ghost predicate NodeOk(digest: Digest, n: Node) {
    TablesOk(digest, n.db, n.log) && ProcessOk(n.process, n.db, n.log) && StartedOk(n.process, n.db.inbox)
  }

  const EMPTY := Node(Db(map[], map[], map[]), [], Down)

  /** Tables climb and history grows. */
  ghost predicate Advances(n: Node, m: Node) {
    n.log <= m.log && Evolves(n.db, m.db)
  }
}
