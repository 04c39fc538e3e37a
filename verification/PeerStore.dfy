/**
 The transactions of the peer service as functions on its three tables.
 Each one is a single SQLite transaction of the source, so it is atomic with
 respect to crashes and to every other task of the process.
 */
module PeerStore {
  import opened Wrappers
  import opened Strings
  import opened PeerTypes

  const INTERRUPTED :=
    "This peer request was interrupted " + "during a restart. It was not rerun because it may have completed tool side "
    + "effects. " + "Please resubmit if you still need it."
  const NO_RESPONSE := "The peer task completed without a response."

  // ----- outbox -------------------------------------------------------------

  /** `INSERT INTO outbox` of a new work row; the primary key refuses an id in use. */
  function Enqueue(db: Db, peers: Peers, id: Id, now: int, peer: PeerId, content: string,
                   replyTo: Option<Id>, hops: int, channel: Option<string>, chat: Option<string>,
                   session: Option<string>): Result<Db, PeerError>
  {
    var text := Strip(content);
    if peer !in peers then Failure(NotPaired)
    else if text == "" || |text| > MAX_CONTENT then Failure(BadContent)
    else if hops >= MAX_REPLY_HOPS then Failure(HopLimit)
    else if id in db.outbox then Failure(IdInUse)
    else
      Success(db.(outbox := db.outbox[id := OutRow(
        Letter(peer, text, replyTo, hops + 1, Work, now, channel, chat, session), Pending, 0, now, None, None)]))
  }

  function MarkAcked(db: Db, id: Id): Db {
    if id !in db.outbox then db
    else db.(outbox := db.outbox[id := db.outbox[id].(state := Acked, lastError := None)])
  }

  function MarkFailed(db: Db, id: Id, error: string): Db {
    if id !in db.outbox then db
    else db.(outbox := db.outbox[id := db.outbox[id].(state := Failed, lastError := Some(error))])
  }

  function Min(a: int, b: int): int {
    if a <= b then a else b
  }

  function Pow2(n: nat): nat {
    if n == 0 then 1 else 2 * Pow2(n - 1)
  }

  function RetryDelay(attempts: nat): int {
    Min(60, Pow2(Min(attempts, 6)))
  }

  /** Two seconds after the first failure, twice as long after each further one, and never more than a minute. */
  lemma RetryDelays(attempts: nat)
    ensures RetryDelay(1) == 2 && RetryDelay(2) == 4 && RetryDelay(3) == 8 && RetryDelay(4) == 16 && RetryDelay(5) == 32
    ensures attempts >= 6 ==> RetryDelay(attempts) == 60
  {
    assert Pow2(2) == 4 && Pow2(4) == 16 && Pow2(6) == 64;
  }

  /** `attempts` is the count the caller read before it sent. */
  function MarkRetry(db: Db, id: Id, error: string, attempts: nat, now: int): Db {
    var tried := attempts + 1;
    if id !in db.outbox then db
    else db.(outbox := db.outbox[id := db.outbox[id].(
      state := if tried >= MAX_ATTEMPTS then Failed else Pending,
      attempts := tried, nextAttempt := now + RetryDelay(tried), lastError := Some(error))])
  }

  predicate Due(row: OutRow, now: int) {
    row.state == Pending && row.nextAttempt <= now
  }

  /** What `_pending_rows` may return: the oldest due rows, twenty at most. */
  ghost predicate IsPendingBatch(db: Db, now: int, rows: seq<(Id, OutRow)>) {
    && |rows| <= 20
    && (forall i, j :: 0 <= i < j < |rows| ==> rows[i].0 != rows[j].0)
    && (forall i, j :: 0 <= i < j < |rows| ==> rows[i].1.letter.created <= rows[j].1.letter.created)
    && (forall i :: 0 <= i < |rows| ==>
          rows[i].0 in db.outbox && db.outbox[rows[i].0] == rows[i].1 && Due(rows[i].1, now))
    && (forall id :: id in db.outbox && Due(db.outbox[id], now) ==>
          || (exists i :: 0 <= i < |rows| && rows[i].0 == id)
          || (|rows| == 20 && forall i :: 0 <= i < |rows| ==> rows[i].1.letter.created <= db.outbox[id].letter.created))
  }

  // ----- inbox --------------------------------------------------------------

  /** `INSERT OR IGNORE INTO inbox`; the flag is `rowcount == 1`. */
  function StoreInbox(db: Db, id: Id, sender: PeerId, content: string, replyTo: Option<Id>, hops: int, now: int)
    : (Db, bool)
  {
    if id in db.inbox then (db, false)
    else (db.(inbox := db.inbox[id := InRow(Job(sender, content, replyTo, hops, Work, now), Received, false)]), true)
  }

  /** The schema upgrade: a row an old release handed to the volatile bus may have started. */
  function Upgrade(db: Db): Db {
    db.(inbox := map id | id in db.inbox ::
      var row := db.inbox[id];
      if row.delivered && row.state == Received then row.(state := Started) else row)
  }

  predicate Unfinished(row: InRow) {
    row.state == Received || row.state == Queued || row.state == Started
  }

  /** What `_pending_inbox` may return: every unfinished row once, oldest first. */
  ghost predicate IsPendingInbox(db: Db, rows: seq<(Id, InRow)>) {
    && (forall i, j :: 0 <= i < j < |rows| ==> rows[i].0 != rows[j].0)
    && (forall i, j :: 0 <= i < j < |rows| ==> rows[i].1.job.received <= rows[j].1.job.received)
    && (forall i :: 0 <= i < |rows| ==>
          rows[i].0 in db.inbox && db.inbox[rows[i].0] == rows[i].1 && Unfinished(rows[i].1))
    && (forall id :: id in db.inbox && Unfinished(db.inbox[id]) ==>
          exists i :: 0 <= i < |rows| && rows[i].0 == id)
  }

  /** `UPDATE inbox SET state='queued' WHERE id=? AND state='received'`. */
  function Claim(db: Db, id: Id): (Db, bool) {
    if id in db.inbox && db.inbox[id].state == Received then
      (db.(inbox := db.inbox[id := db.inbox[id].(state := Queued)]), true)
    else (db, false)
  }

  /** `UPDATE inbox SET state='started' WHERE id=? AND state='queued'`. */
  function Begin(db: Db, id: Id): (Db, bool) {
    if id in db.inbox && db.inbox[id].state == Queued then
      (db.(inbox := db.inbox[id := db.inbox[id].(state := Started)]), true)
    else (db, false)
  }

  /** The text a completion reports back. */
  function ReplyText(content: string): string {
    var text := Truncate(Strip(content), MAX_CONTENT);
    if text == "" then NO_RESPONSE else text
  }

  /** What a requester may be told of a completion: what was said, stripped and cut, or that nothing was said. */
  predicate Reports(content: string, text: string) {
    var said := Strip(content);
    if said == "" then text == NO_RESPONSE
    else if |said| <= 12_000 then text == said
    else text == said[..12_000]
  }

  lemma ReplyTextReports(content: string)
    ensures Reports(content, ReplyText(content))
  {
  }

  /** The notice of an interruption is reported as it is. */
  lemma InterruptionIsReported(text: string)
    ensures Reports(INTERRUPTED, text) <==> text == INTERRUPTED
  {
    var first, last := "This peer request was interrupted ", "Please resubmit if you still need it.";
    assert first[0] == 'T' && last[|last| - 1] == '.';
    assert INTERRUPTED[0] == first[0] && INTERRUPTED[|INTERRUPTED| - 1] == last[|last| - 1];
    assert StripLeft(INTERRUPTED) == INTERRUPTED && StripRight(INTERRUPTED) == INTERRUPTED;
  }

  predicate Answers(db: Db, peers: Peers, id: Id) {
    id in db.inbox && db.inbox[id].job.kind == Work && db.inbox[id].job.sender in peers
  }

  /** The row is completed whatever its state; only the first reply enters the outbox. */
  function Complete(db: Db, peers: Peers, digest: Digest, id: Id, content: string, now: int): Db {
    if id !in db.inbox || db.inbox[id].job.kind != Work then db
    else
      var row := db.inbox[id];
      var done := db.(inbox := db.inbox[id := row.(state := Completed, delivered := true)]);
      var rid := ResultId(digest, id);
      if row.job.sender !in peers || rid in db.outbox then done
      else done.(outbox := db.outbox[rid := OutRow(
        Letter(row.job.sender, ReplyText(content), Some(id), row.job.hops, Reply, now, None, None, None),
        Pending, 0, now, None, None)])
  }

  // ----- results ------------------------------------------------------------

  function Accept(db: Db, id: Id, sender: PeerId, request: Id, content: string, now: int): Db {
    if id in db.results then db
    else
      var text := Truncate(content, MAX_CONTENT);
      var stored := db.(results := db.results[id := ResRow(Answer(request, sender, text, now), false)]);
      if request in db.outbox && db.outbox[request].letter.peer == sender then
        stored.(outbox := db.outbox[request := db.outbox[request].(state := Finished, result := Some(text))])
      else stored
  }

  /** What `_publish_result` does with one result. */
  datatype Publication =
    | Nothing                                               // unknown, already published, or nobody to tell
    | MissingColumn                                         // the peer branch reads a column its query never selected
    | Send(channel: string, chat: string, answer: Answer)

  function Truthy(s: Option<string>): bool {
    s.Some? && s.value != ""
  }

  function PublicationOf(db: Db, id: Id): Publication {
    if id !in db.results || db.results[id].published then Nothing
    else
      var answer := db.results[id].answer;
      if answer.request !in db.outbox then Nothing
      else
        var origin := db.outbox[answer.request].letter;
        if origin.returnChannel == Some("peer") then MissingColumn
        else if Truthy(origin.returnChannel) && Truthy(origin.returnChat) then
          Send(origin.returnChannel.value, origin.returnChat.value, answer)
        else Nothing
  }

  function MarkPublished(db: Db, id: Id): Db {
    if id !in db.results then db
    else db.(results := db.results[id := db.results[id].(published := true)])
  }

  /** Read, publish and mark without interruption. */
  function Published(db: Db, id: Id): Db {
    if PublicationOf(db, id).Send? then MarkPublished(db, id) else db
  }

  // ----- how the tables may change ------------------------------------------

  function Rank(state: InState): nat {
    match state
    case Received => 0
    case Queued => 1
    case Started => 2
    case Completed => 3
  }

  ghost predicate OutboxEvolves(a: map<Id, OutRow>, b: map<Id, OutRow>) {
    forall id :: id in a ==> id in b && a[id].letter == b[id].letter
  }

  ghost predicate InboxEvolves(a: map<Id, InRow>, b: map<Id, InRow>) {
    forall id :: id in a ==>
      id in b && a[id].job == b[id].job && Rank(a[id].state) <= Rank(b[id].state)
  }

  ghost predicate ResultsEvolve(a: map<Id, ResRow>, b: map<Id, ResRow>) {
    forall id :: id in a ==>
      id in b && a[id].answer == b[id].answer && (a[id].published ==> b[id].published)
  }

  /** No row disappears or changes what it says, and inbox states only climb. */
  ghost predicate Evolves(a: Db, b: Db) {
    && OutboxEvolves(a.outbox, b.outbox)
    && InboxEvolves(a.inbox, b.inbox)
    && ResultsEvolve(a.results, b.results)
  }

  lemma EvolvesIsTransitive(a: Db, b: Db, c: Db)
    requires Evolves(a, b) && Evolves(b, c)
    ensures Evolves(a, c)
  {
  }

  /** A claimed row can be begun once; nothing that follows can make it begin again. */
  lemma BegunStaysBegun(db: Db, id: Id, later: Db)
    requires Begin(db, id).1 && Evolves(Begin(db, id).0, later)
    ensures !Begin(later, id).1 && !Claim(later, id).1
  {
  }

  /** Receiving a stored work envelope again changes no table. */
  lemma RedeliveredWorkIsIgnored(db: Db, id: Id, sender: PeerId, content: string, reply: Option<Id>,
                                 hops: int, now: int, later: Db, again: int)
    requires Evolves(StoreInbox(db, id, sender, content, reply, hops, now).0, later)
    ensures StoreInbox(later, id, sender, content, reply, hops, again) == (later, false)
  {
  }

  /** Receiving a stored result again changes no table and, once published, publishes nothing. */
  lemma RedeliveredResultIsIgnored(db: Db, id: Id, sender: PeerId, request: Id, content: string,
                                   now: int, later: Db, again: int)
    requires Evolves(Accept(db, id, sender, request, content, now), later)
    ensures Accept(later, id, sender, request, content, again) == later
    ensures later.results[id].published ==> PublicationOf(later, id) == Nothing
  {
  }
}
