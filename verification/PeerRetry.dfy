/** Delivery attempts end: every settled delivery uses up part of a finite allowance. */
module PeerRetry {
  import opened Wrappers
  import opened Strings
  import opened PeerTypes
  import opened PeerStore
  import opened PeerNode
  import opened PeerNodeProofs
  import opened PeerSystem
  import opened PeerTheorems

  /** The attempts the rows of the outbox have left. */
  ghost function AttemptsLeft(outbox: map<Id, OutRow>): int
    decreases |outbox|
  {
    if outbox == map[] then 0
    else
      var id :| id in outbox;
      MAX_ATTEMPTS - outbox[id].attempts + AttemptsLeft(outbox - {id})
  }

  lemma {:induction false} LeftWithout(outbox: map<Id, OutRow>, id: Id)
    requires id in outbox
    ensures AttemptsLeft(outbox) == MAX_ATTEMPTS - outbox[id].attempts + AttemptsLeft(outbox - {id})
    decreases |outbox|
  {
    var first :| first in outbox
      && AttemptsLeft(outbox) == MAX_ATTEMPTS - outbox[first].attempts + AttemptsLeft(outbox - {first});
    if first != id {
      LeftWithout(outbox - {first}, id);
      LeftWithout(outbox - {id}, first);
      assert outbox - {first} - {id} == outbox - {id} - {first};
    }
  }

  lemma LeftAfterUpdate(outbox: map<Id, OutRow>, id: Id, row: OutRow)
    requires id in outbox
    ensures AttemptsLeft(outbox[id := row]) == AttemptsLeft(outbox) + outbox[id].attempts - row.attempts
  {
    LeftWithout(outbox, id);
    LeftWithout(outbox[id := row], id);
    assert outbox[id := row] - {id} == outbox - {id};
  }

  lemma {:induction false} LeftIsNotNegative(outbox: map<Id, OutRow>)
    requires forall id :: id in outbox ==> AttemptsOk(outbox[id])
    ensures AttemptsLeft(outbox) >= 0
    decreases |outbox|
  {
    if outbox != map[] {
      var id :| id in outbox
        && AttemptsLeft(outbox) == MAX_ATTEMPTS - outbox[id].attempts + AttemptsLeft(outbox - {id});
      LeftIsNotNegative(outbox - {id});
    }
  }

  /** The rows the retry loop may still have to deliver: pending ones and those it holds. */
  function Unsettled(outbox: map<Id, OutRow>, batch: seq<(Id, OutRow)>): set<Id> {
    (set id | id in outbox && outbox[id].state == Pending) + (set id | id in Ids(batch))
  }

  function BatchOf(p: Process): seq<(Id, OutRow)> {
    if p.Up? then p.batch else []
  }

  /** The allowance of an instance. */
  ghost function Allowance(n: Node): int {
    AttemptsLeft(n.db.outbox) + |Unsettled(n.db.outbox, BatchOf(n.process))|
  }

  predicate Settles(a: Action) {
    a.HeadAcked? || a.HeadRetried? || a.HeadUnpaired?
  }

  lemma SubsetIsNoLarger<T>(a: set<T>, b: set<T>)
    requires a <= b
    ensures |a| <= |b| && (a != b ==> |a| < |b|)
  {
    assert b == a + (b - a);
  }

  lemma SettledHead(n: Node, a: Action, m: Node)
    requires ProcessOk(n.process, n.db, n.log) && SettlesHead(n, a, m) && Settles(a)
    ensures Allowance(m) < Allowance(n)
  {
    var batch := n.process.batch;
    var id := batch[0].0;
    BatchHead(batch, n.db.outbox);
    var row := m.db.outbox[id];
    assert m.db.outbox == n.db.outbox[id := row];
    LeftAfterUpdate(n.db.outbox, id, row);
    assert Ids(batch[1..]) == Ids(batch)[1..];
    DistinctAt(Ids(batch), 0);
    var before, after := Unsettled(n.db.outbox, batch), Unsettled(m.db.outbox, batch[1..]);
    assert id in before by { assert Ids(batch)[0] == id; }
    assert after <= before;
    if !a.HeadRetried? {
      assert id !in after;
    }
    SubsetIsNoLarger(after, before);
  }

  /** A step that adds no row and stops no process never gives allowance back. */
  lemma AllowanceNeverRises(n: Node, digest: Digest, a: Action, m: Node)
    requires NodeOk(digest, n) && Step(n, digest, a, m) && n.process.Up? && !a.Crash?
    requires m.db.outbox.Keys == n.db.outbox.Keys
    ensures Allowance(m) <= Allowance(n)
    ensures Settles(a) ==> Allowance(m) < Allowance(n)
  {
    hide OutboxOk, InboxOk, BeganOk, RepliesOk, RepliedOk, BusOk, SnapshotOk, RecoveredOk, HandlersOk, BegunOk;
    hide NothingForgotten, AttemptsLeft, Unsettled;
    if Settles(a) {
      SettledHead(n, a, m);
    } else if a.Poll? {
      PolledRowsWerePending(n.db, a.due, a.now);
    } else if a.AcceptResult? {
      if m.db.outbox != n.db.outbox { FinishedRow(n, a.request, m.db.outbox[a.request]); }
    } else {
      hide Complete;
      OutboxUntouched(n, digest, a, m);
    }
  }

  lemma PolledRowsWerePending(db: Db, due: seq<(Id, OutRow)>, now: int)
    requires IsPendingBatch(db, now, due)
    ensures Unsettled(db.outbox, due) == Unsettled(db.outbox, [])
  {
    forall id | id in Ids(due) ensures id in db.outbox && db.outbox[id].state == Pending {
      var i :| 0 <= i < |due| && Ids(due)[i] == id;
      assert due[i].0 == id;
    }
  }

  lemma FinishedRow(n: Node, id: Id, row: OutRow)
    requires n.process.Up? && id in n.db.outbox && row.state == Finished && row.attempts == n.db.outbox[id].attempts
    ensures AttemptsLeft(n.db.outbox[id := row]) == AttemptsLeft(n.db.outbox)
    ensures |Unsettled(n.db.outbox[id := row], n.process.batch)| <= |Unsettled(n.db.outbox, n.process.batch)|
  {
    LeftAfterUpdate(n.db.outbox, id, row);
    SubsetIsNoLarger(Unsettled(n.db.outbox[id := row], n.process.batch), Unsettled(n.db.outbox, n.process.batch));
  }

  lemma CompleteAddsOrLeaves(db: Db, peers: Peers, digest: Digest, id: Id, content: string, now: int)
    ensures var done := Complete(db, peers, digest, id, content, now);
            done.outbox.Keys == db.outbox.Keys ==> done.outbox == db.outbox
  {
    hide ReplyText, ResultId;
    var done := Complete(db, peers, digest, id, content, now);
    if done.outbox != db.outbox { assert ResultId(digest, id) in done.outbox.Keys; }
  }

  lemma OutboxUntouched(n: Node, digest: Digest, a: Action, m: Node)
    requires Step(n, digest, a, m) && n.process.Up? && !a.Crash? && !a.Poll? && !a.AcceptResult? && !Settles(a)
    requires m.db.outbox.Keys == n.db.outbox.Keys
    ensures m.db.outbox == n.db.outbox && m.process.Up? && m.process.batch == n.process.batch
  {
    hide Complete, Strip, PublicationOf;
    match a
    case Recover(now) =>
      var (id, row) := n.process.snapshot[n.process.next];
      CompleteAddsOrLeaves(n.db, n.process.peers, digest, id, INTERRUPTED, now);
    case CompleteWork(id, content, now) =>
      CompleteAddsOrLeaves(n.db, n.process.peers, digest, id, content, now);
    case Submit(id, peer, content, replyTo, hops, channel, chat, session, now) =>
      assert m != n ==> id in m.db.outbox.Keys;
    case _ =>
  }

  lemma StillUp(n: Node, digest: Digest, a: Action, m: Node)
    requires Step(n, digest, a, m) && n.process.Up? && !a.Crash?
    ensures m.process.Up?
  {
    hide Complete, PublicationOf, Accept, MarkRetry, MarkAcked, MarkFailed, Enqueue, IsPendingBatch, IsPendingInbox;
    hide CompletionEvents, Claim, Begin;
  }

  // ----- over whole stretches of a run ------------------------------------------------

  /** The move ends a delivery of `p`: an acknowledgement arrives, the attempt failed, or the peer is gone. */
  predicate SettlesAt(move: Move, p: PeerId) {
    move == AckArrives(p) || (move.Local? && move.p == p && Settles(move.a))
  }

  function Deliveries(moves: seq<Move>, p: PeerId): nat {
    if moves == [] then 0
    else Deliveries(moves[..|moves| - 1], p) + if SettlesAt(moves[|moves| - 1], p) then 1 else 0
  }

  /** From state `i` to state `j` of the run `p` does not crash and no row enters its outbox. */
  ghost predicate QuietStretch(run: seq<System>, moves: seq<Move>, p: PeerId, i: nat, j: nat)
    requires |run| == |moves| + 1
  {
    && i <= j <= |moves| && p in run[i].nodes && run[i].nodes[p].process.Up?
    && forall k :: i <= k < j ==> QuietAt(run, moves, p, k)
  }

  ghost predicate QuietAt(run: seq<System>, moves: seq<Move>, p: PeerId, k: nat)
    requires |run| == |moves| + 1 && k < |moves|
  {
    && moves[k] != Local(p, Crash) && p in run[k].nodes && p in run[k + 1].nodes
    && run[k + 1].nodes[p].db.outbox.Keys == run[k].nodes[p].db.outbox.Keys
  }

  lemma MoveUsesAllowance(s: System, mac: Mac, digest: Digest, move: Move, t: System, p: PeerId)
    requires Next(s, mac, digest, move, t) && p in s.nodes && p in t.nodes && NodeOk(digest, s.nodes[p])
    requires s.nodes[p].process.Up? && move != Local(p, Crash)
    requires t.nodes[p].db.outbox.Keys == s.nodes[p].db.outbox.Keys
    ensures t.nodes[p].process.Up?
    ensures Allowance(t.nodes[p]) + (if SettlesAt(move, p) then 1 else 0) <= Allowance(s.nodes[p])
  {
    hide NodeOk, Step, Allowance, Admit, MayArrive, PublicationOf;
    var n, m := s.nodes[p], t.nodes[p];
    if n != m || SettlesAt(move, p) {
      var a := match move
               case Local(_, a) => a
               case AckArrives(_) => HeadAcked
               case Receive(_, envelope, signature, now) =>
                 var r := Admit(p, n.process.peers, mac, envelope, signature).value;
                 if r.WorkRequest? then Store(r.id, r.sender, r.content, r.replyTo, r.hops, now)
                 else AcceptResult(r.id, r.sender, r.request, r.content, now)
               case Transmit(_) => Crash;
      assert Step(n, digest, a, m);
      AllowanceNeverRises(n, digest, a, m);
      StillUp(n, digest, a, m);
    }
  }

  lemma {:induction false} StretchUsesAllowance(run: seq<System>, moves: seq<Move>, mac: Mac, digest: Digest,
                                                p: PeerId, i: nat, j: nat)
    requires IsRun(run, moves, mac, digest) && QuietStretch(run, moves, p, i, j)
    ensures p in run[j].nodes && run[j].nodes[p].process.Up?
    ensures Deliveries(moves[i..j], p) + Allowance(run[j].nodes[p]) <= Allowance(run[i].nodes[p])
    decreases j
  {
    hide Next, SystemOk, Allowance, NodeOk;
    if i < j {
      var k := j - 1;
      assert QuietAt(run, moves, p, k) && Next(run[k], mac, digest, moves[k], run[k + 1]);
      StretchUsesAllowance(run, moves, mac, digest, p, i, k);
      NodeOfRun(run, moves, mac, digest, p, k);
      MoveUsesAllowance(run[k], mac, digest, moves[k], run[j], p);
      assert moves[i..j][..k - i] == moves[i..k];
    }
  }

  lemma NodeOfRun(run: seq<System>, moves: seq<Move>, mac: Mac, digest: Digest, p: PeerId, i: nat)
    requires IsRun(run, moves, mac, digest) && i < |run| && p in run[i].nodes
    ensures NodeOk(digest, run[i].nodes[p])
  {
    hide NodeOk, JobsOk, AnswersOk, AckedOk, AnnouncedOk, PacketsOk, AcksOk, Next;
    RunIsOk(run, moves, mac, digest, i);
    assert InstanceOk(run[i], digest, p);
  }

  /**
   Retry terminates: over every stretch of every run without new rows or a crash, an instance
   ends no more deliveries than its outbox has attempts and open rows when the stretch begins,
   even when rows it already holds a result for are put back to pending.
   */
  lemma RetryTerminates(run: seq<System>, moves: seq<Move>, mac: Mac, digest: Digest, p: PeerId, i: nat, j: nat)
    requires IsRun(run, moves, mac, digest) && QuietStretch(run, moves, p, i, j)
    ensures Deliveries(moves[i..j], p) <= Allowance(run[i].nodes[p])
  {
    hide Next, RepliesOk, RepliedOk, InboxOk, BeganOk, ProcessOk;
    StretchUsesAllowance(run, moves, mac, digest, p, i, j);
    NodeOfRun(run, moves, mac, digest, p, j);
    LeftIsNotNegative(run[j].nodes[p].db.outbox);
  }

  /** In every reachable outbox a pending row may still be tried, and has made one to three hops. */
  lemma PendingRowsMayBeTried(run: seq<System>, moves: seq<Move>, mac: Mac, digest: Digest, i: nat, p: PeerId, id: Id)
    requires IsRun(run, moves, mac, digest) && i < |run|
    requires p in run[i].nodes && id in run[i].nodes[p].db.outbox && run[i].nodes[p].db.outbox[id].state == Pending
    ensures 0 <= run[i].nodes[p].db.outbox[id].attempts < MAX_ATTEMPTS
    ensures 1 <= run[i].nodes[p].db.outbox[id].letter.hops <= MAX_REPLY_HOPS
  {
    hide Next, RepliesOk, RepliedOk, InboxOk, BeganOk, ProcessOk;
    NodeOfRun(run, moves, mac, digest, p, i);
    OutboxRowOk(digest, run[i].nodes[p].db.outbox, id);
  }
}
