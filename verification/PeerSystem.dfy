/**
 Any number of instances and a network that loses, repeats and reorders. A
 packet once sent may be received any number of times or never, by anyone;
 senders that are not modelled may say anything, but nobody forges the
 signature of a modelled instance.
 */
module PeerSystem {
  import opened Wrappers
  import opened Strings
  import opened PeerTypes
  import opened PeerStore
  import opened PeerNode
  import opened PeerNodeProofs

  datatype Packet = Packet(envelope: Envelope, signature: Json)

  /** The reply to an envelope, on the connection it arrived on. */
  datatype Ack = Ack(receiver: PeerId, sender: PeerId, kind: Kind, id: Id)

  datatype System = System(nodes: map<PeerId, Node>, net: set<Packet>, acks: set<Ack>)

  datatype Move =
    | Local(p: PeerId, a: Action)
    | Transmit(p: PeerId)
    | Receive(p: PeerId, envelope: Option<Envelope>, signature: Json, now: int)
    | AckArrives(p: PeerId)

  /** Actions an instance takes without hearing from the network. */
  predicate Internal(a: Action) {
    !a.Store? && !a.AcceptResult? && !a.HeadAcked?
  }

  /** What a modelled instance never sent, nobody else can sign in its name. */
  ghost predicate MayArrive(s: System, envelope: Option<Envelope>, signature: Json) {
    || envelope.None?
    || Packet(envelope.value, signature) in s.net
    || (Field(envelope.value, "sender").Str? ==> Field(envelope.value, "sender").s !in s.nodes)
  }

  ghost predicate StepAt(s: System, digest: Digest, p: PeerId, a: Action, t: System) {
    && p in s.nodes && p in t.nodes
    && t.nodes == s.nodes[p := t.nodes[p]]
    && Step(s.nodes[p], digest, a, t.nodes[p])
  }

  /** The acknowledgement an internal step releases: publishing a stored row ends its handler. */
  function Released(n: Node, p: PeerId, a: Action): set<Ack> {
    if a.PublishStored? && a.id in n.db.inbox then {Ack(p, n.db.inbox[a.id].job.sender, Work, a.id)} else {}
  }

  ghost predicate ReceivesWork(s: System, digest: Digest, p: PeerId, r: Request, now: int, t: System)
    requires p in s.nodes && r.WorkRequest?
  {
    && StepAt(s, digest, p, Store(r.id, r.sender, r.content, r.replyTo, r.hops, now), t)
    && t.net == s.net
    && t.acks == if r.id in s.nodes[p].db.inbox then s.acks + {Ack(p, r.sender, Work, r.id)} else s.acks
  }

  /** No acknowledgement leaves when publishing the result raises. */
  ghost predicate ReceivesResult(s: System, digest: Digest, p: PeerId, r: Request, now: int, t: System)
    requires p in s.nodes && r.ResultRequest?
  {
    && StepAt(s, digest, p, AcceptResult(r.id, r.sender, r.request, r.content, now), t)
    && t.net == s.net
    && t.acks == if PublicationOf(t.nodes[p].db, r.id) == MissingColumn then s.acks
                 else s.acks + {Ack(p, r.sender, Reply, r.id)}
  }

  ghost predicate Next(s: System, mac: Mac, digest: Digest, move: Move, t: System) {
    match move
    case Local(p, a) =>
      && Internal(a) && StepAt(s, digest, p, a, t)
      && t.net == s.net && t.acks == s.acks + Released(s.nodes[p], p, a)
    case Transmit(p) =>
      && p in s.nodes && s.nodes[p].process.Up? && s.nodes[p].process.batch != []
      && var (id, row) := s.nodes[p].process.batch[0];
         && row.letter.peer in s.nodes[p].process.peers
         && var data := EnvelopeOf(p, id, row.letter);
            t == s.(net := s.net + {Packet(data, Str(mac(s.nodes[p].process.peers[row.letter.peer], data)))})
    case Receive(p, envelope, signature, now) =>
      && p in s.nodes && s.nodes[p].process.Up? && MayArrive(s, envelope, signature)
      && (match Admit(p, s.nodes[p].process.peers, mac, envelope, signature)
          case Failure(_) => t == s
          case Success(r) =>
            if r.WorkRequest? then ReceivesWork(s, digest, p, r, now, t)
            else ReceivesResult(s, digest, p, r, now, t))
    case AckArrives(p) =>
      && p in s.nodes && s.nodes[p].process.Up? && s.nodes[p].process.batch != []
      && var (id, row) := s.nodes[p].process.batch[0];
         && (row.letter.peer in s.nodes ==> Ack(row.letter.peer, p, row.letter.kind, id) in s.acks)
         && StepAt(s, digest, p, HeadAcked, t)
         && t.net == s.net && t.acks == s.acks
  }

  ghost predicate Init(s: System) {
    && (forall p :: p in s.nodes ==> s.nodes[p] == EMPTY)
    && s.net == {} && s.acks == {}
  }

  /** A run: its states, and the move between each two of them. */
  ghost predicate IsRun(run: seq<System>, moves: seq<Move>, mac: Mac, digest: Digest) {
    && |run| == |moves| + 1
    && Init(run[0])
    && forall i :: 0 <= i < |moves| ==> Next(run[i], mac, digest, moves[i], run[i + 1])
  }

  // ----- what one step may add --------------------------------------------------

  ghost predicate Acknowledged(outbox: map<Id, OutRow>, id: Id) {
    id in outbox && outbox[id].state == Acked
  }

  /** New inbox rows come from `Store`, new result rows from `AcceptResult`, acknowledged rows from `HeadAcked`. */
  ghost predicate AddsOnly(n: Node, a: Action, m: Node) {
    && (forall id :: id in m.db.inbox && id !in n.db.inbox ==>
          a.Store? && a.id == id
          && m.db.inbox[id].job == Job(a.sender, a.content, a.replyTo, a.hops, Work, a.now))
    && (forall id :: id in m.db.results && id !in n.db.results ==>
          a.AcceptResult? && a.id == id
          && m.db.results[id].answer == Answer(a.request, a.sender, Truncate(a.content, MAX_CONTENT), a.now))
    && (forall id :: Acknowledged(m.db.outbox, id) && !Acknowledged(n.db.outbox, id) ==>
          a.HeadAcked? && n.process.Up? && n.process.batch != [] && n.process.batch[0].0 == id)
    && (forall i :: |n.log| <= i < |m.log| && m.log[i].Announced? ==>
          m.log[i].result in n.db.results && m.log[i].answer == n.db.results[m.log[i].result].answer)
    && (m.process.Up? ==> forall id :: id in m.process.announced ==>
          id in n.db.results || (n.process.Up? && id in n.process.announced))
  }

  lemma CompleteAddsOnly(db: Db, peers: Peers, digest: Digest, id: Id, content: string, now: int)
    ensures var done := Complete(db, peers, digest, id, content, now);
            && done.inbox.Keys == db.inbox.Keys && done.results == db.results
            && forall x :: Acknowledged(done.outbox, x) ==> Acknowledged(db.outbox, x)
  {
    hide ReplyText;
  }

  lemma OutboxStepAddsOnly(n: Node, digest: Digest, a: Action, m: Node)
    requires Step(n, digest, a, m)
    requires a.Submit? || a.AcceptResult? || a.HeadAcked? || a.HeadRetried? || a.HeadUnpaired? || a.SetPublished?
    ensures AddsOnly(n, a, m)
  {
    hide Sendable, Strip, RetryDelay;
  }

  lemma InboxStepAddsOnly(n: Node, digest: Digest, a: Action, m: Node)
    requires Step(n, digest, a, m)
    requires a.Store? || a.PublishStored? || a.BeginWork? || a.Announce?
    ensures AddsOnly(n, a, m)
  {
  }

  lemma CompletionStepAddsOnly(n: Node, digest: Digest, a: Action, m: Node)
    requires Step(n, digest, a, m) && (a.CompleteWork? || a.Recover?)
    ensures AddsOnly(n, a, m)
  {
    hide Complete;
    if a.CompleteWork? {
      CompleteAddsOnly(n.db, n.process.peers, digest, a.id, a.content, a.now);
    } else {
      var (id, row) := n.process.snapshot[n.process.next];
      CompleteAddsOnly(n.db, n.process.peers, digest, id, INTERRUPTED, a.now);
    }
  }

  lemma StepAddsOnly(n: Node, digest: Digest, a: Action, m: Node)
    requires Step(n, digest, a, m)
    ensures AddsOnly(n, a, m)
  {
    if a.Submit? || a.AcceptResult? || a.HeadAcked? || a.HeadRetried? || a.HeadUnpaired? || a.SetPublished? {
      OutboxStepAddsOnly(n, digest, a, m);
    } else if a.Store? || a.PublishStored? || a.BeginWork? || a.Announce? {
      InboxStepAddsOnly(n, digest, a, m);
    } else if a.CompleteWork? || a.Recover? {
      CompletionStepAddsOnly(n, digest, a, m);
    } else {
      hide IsPendingInbox, IsPendingBatch;
    }
  }

  // ----- what every reachable system satisfies ------------------------------------

  predicate Known(s: System, q: PeerId, id: Id) {
    q in s.nodes && id in s.nodes[q].db.outbox
  }

  function LetterAt(s: System, q: PeerId, id: Id): Letter
    requires Known(s, q, id)
  {
    s.nodes[q].db.outbox[id].letter
  }

  /** Every packet repeats a letter still held by the instance it names as sender. */
  ghost predicate PacketsOk(s: System) {
    forall k :: k in s.net ==>
      var (from, id) := (Field(k.envelope, "sender"), Field(k.envelope, "id"));
      && from.Str? && id.Str? && Known(s, from.s, id.s)
      && k.envelope == EnvelopeOf(from.s, id.s, LetterAt(s, from.s, id.s))
  }

  /** A job from a modelled sender repeats the work letter that sender addressed to `p`. */
  predicate JobFrom(s: System, p: PeerId, id: Id, job: Job) {
    job.sender in s.nodes ==>
      && Known(s, job.sender, id)
      && var letter := LetterAt(s, job.sender, id);
         letter.kind == Work && letter.peer == p && letter.content == job.content
         && letter.replyTo == job.replyTo && letter.hops == job.hops
  }

  /** An answer from a modelled sender repeats the reply letter that sender addressed to `p`. */
  predicate AnswerFrom(s: System, p: PeerId, id: Id, answer: Answer) {
    answer.sender in s.nodes ==>
      && Known(s, answer.sender, id)
      && var letter := LetterAt(s, answer.sender, id);
         letter.kind == Reply && letter.peer == p && letter.content == answer.content
         && letter.replyTo == Some(answer.request)
  }

  ghost predicate JobsOk(s: System, p: PeerId)
    requires p in s.nodes
  {
    forall id :: id in s.nodes[p].db.inbox ==> JobFrom(s, p, id, s.nodes[p].db.inbox[id].job)
  }

  ghost predicate AnswersOk(s: System, p: PeerId)
    requires p in s.nodes
  {
    forall id :: id in s.nodes[p].db.results ==> AnswerFrom(s, p, id, s.nodes[p].db.results[id].answer)
  }

  predicate Stored(n: Node, kind: Kind, id: Id) {
    if kind == Work then id in n.db.inbox else id in n.db.results
  }

  ghost predicate AcksOk(s: System) {
    forall k :: k in s.acks ==> k.receiver in s.nodes && Stored(s.nodes[k.receiver], k.kind, k.id)
  }

  /** An acknowledged letter is in its receiver's tables. */
  ghost predicate AckedOk(s: System, p: PeerId)
    requires p in s.nodes
  {
    forall id :: Acknowledged(s.nodes[p].db.outbox, id) && s.nodes[p].db.outbox[id].letter.peer in s.nodes ==>
      var letter := s.nodes[p].db.outbox[id].letter;
      Stored(s.nodes[letter.peer], letter.kind, id)
  }

  ghost predicate AnnouncedOk(n: Node) {
    && (forall i :: 0 <= i < |n.log| && n.log[i].Announced? ==>
          n.log[i].result in n.db.results && n.db.results[n.log[i].result].answer == n.log[i].answer)
    && (n.process.Up? ==> forall id :: id in n.process.announced ==> id in n.db.results)
  }

  ghost predicate InstanceOk(s: System, digest: Digest, p: PeerId)
    requires p in s.nodes
  {
    NodeOk(digest, s.nodes[p]) && JobsOk(s, p) && AnswersOk(s, p) && AckedOk(s, p) && AnnouncedOk(s.nodes[p])
  }

  ghost predicate SystemOk(s: System, digest: Digest) {
    && (forall p :: p in s.nodes ==> InstanceOk(s, digest, p))
    && PacketsOk(s) && AcksOk(s)
  }

  /** Every instance is still there, its tables no lower and its history no shorter. */
  ghost predicate SystemAdvances(s: System, t: System) {
    s.nodes.Keys == t.nodes.Keys && forall p :: p in s.nodes ==> Advances(s.nodes[p], t.nodes[p])
  }

  lemma LetterStays(s: System, t: System, q: PeerId, id: Id)
    requires SystemAdvances(s, t) && Known(s, q, id)
    ensures Known(t, q, id) && LetterAt(t, q, id) == LetterAt(s, q, id)
  {
    assert Advances(s.nodes[q], t.nodes[q]);
  }

  lemma PacketsStay(s: System, t: System)
    requires SystemAdvances(s, t) && PacketsOk(s) && t.net == s.net
    ensures PacketsOk(t)
  {
    forall k | k in t.net
      ensures var (from, id) := (Field(k.envelope, "sender"), Field(k.envelope, "id"));
              && from.Str? && id.Str? && Known(t, from.s, id.s)
              && k.envelope == EnvelopeOf(from.s, id.s, LetterAt(t, from.s, id.s))
    {
      LetterStays(s, t, Field(k.envelope, "sender").s, Field(k.envelope, "id").s);
    }
  }

  lemma StoredStays(n: Node, m: Node, kind: Kind, id: Id)
    requires Advances(n, m) && Stored(n, kind, id)
    ensures Stored(m, kind, id)
  {
  }

  lemma AcksStay(s: System, t: System)
    requires SystemAdvances(s, t) && AcksOk(s)
    requires forall k :: k in t.acks && k !in s.acks ==>
               k.receiver in t.nodes && Stored(t.nodes[k.receiver], k.kind, k.id)
    ensures AcksOk(t)
  {
    hide Stored, Evolves;
    forall k | k in t.acks ensures k.receiver in t.nodes && Stored(t.nodes[k.receiver], k.kind, k.id) {
      if k in s.acks {
        StoredStays(s.nodes[k.receiver], t.nodes[k.receiver], k.kind, k.id);
      }
    }
  }

  lemma RowsStay(s: System, t: System, p: PeerId, id: Id, job: Job, answer: Answer)
    requires SystemAdvances(s, t)
    ensures JobFrom(s, p, id, job) ==> JobFrom(t, p, id, job)
    ensures AnswerFrom(s, p, id, answer) ==> AnswerFrom(t, p, id, answer)
  {
    hide Advances;
    if Known(s, job.sender, id) { LetterStays(s, t, job.sender, id); }
    if Known(s, answer.sender, id) { LetterStays(s, t, answer.sender, id); }
  }

  /** What the one instance that moved, by `a`, must have learned from a modelled sender. */
  ghost predicate Informed(s: System, p: PeerId, a: Action)
    requires p in s.nodes
  {
    && (a.Store? ==> JobFrom(s, p, a.id, Job(a.sender, a.content, a.replyTo, a.hops, Work, a.now)))
    && (a.AcceptResult? ==>
          AnswerFrom(s, p, a.id, Answer(a.request, a.sender, Truncate(a.content, MAX_CONTENT), a.now)))
    && (a.HeadAcked? && s.nodes[p].process.Up? && s.nodes[p].process.batch != [] ==>
          var (id, row) := s.nodes[p].process.batch[0];
          row.letter.peer in s.nodes ==> Stored(s.nodes[row.letter.peer], row.letter.kind, id))
  }

  lemma RowsKept(s: System, t: System, p: PeerId, a: Action)
    requires SystemAdvances(s, t) && p in s.nodes && JobsOk(s, p) && AnswersOk(s, p)
    requires AddsOnly(s.nodes[p], a, t.nodes[p]) && Informed(s, p, a)
    ensures JobsOk(t, p) && AnswersOk(t, p)
  {
    hide JobFrom, AnswerFrom, Acknowledged, Stored;
    var n, m := s.nodes[p], t.nodes[p];
    assert Advances(n, m);
    forall id | id in m.db.inbox ensures JobFrom(t, p, id, m.db.inbox[id].job) {
      RowsStay(s, t, p, id, m.db.inbox[id].job, Answer("", "", "", 0));
    }
    forall id | id in m.db.results ensures AnswerFrom(t, p, id, m.db.results[id].answer) {
      RowsStay(s, t, p, id, Job("", "", None, 0, Work, 0), m.db.results[id].answer);
    }
  }

  lemma AckedKept(s: System, t: System, p: PeerId, a: Action)
    requires SystemAdvances(s, t) && p in s.nodes && AckedOk(s, p)
    requires ProcessOk(s.nodes[p].process, s.nodes[p].db, s.nodes[p].log)
    requires AddsOnly(s.nodes[p], a, t.nodes[p]) && Informed(s, p, a)
    ensures AckedOk(t, p)
  {
    hide JobFrom, AnswerFrom, Stored, ProcessOk;
    var n, m := s.nodes[p], t.nodes[p];
    assert Advances(n, m);
    forall id | Acknowledged(m.db.outbox, id) && m.db.outbox[id].letter.peer in t.nodes
      ensures var letter := m.db.outbox[id].letter; Stored(t.nodes[letter.peer], letter.kind, id)
    {
      var letter := m.db.outbox[id].letter;
      if !Acknowledged(n.db.outbox, id) { HeadLetter(n); }
      StoredStays(s.nodes[letter.peer], t.nodes[letter.peer], letter.kind, id);
    }
  }

  lemma HeadLetter(n: Node)
    requires ProcessOk(n.process, n.db, n.log) && n.process.Up? && n.process.batch != []
    ensures var (id, row) := n.process.batch[0]; id in n.db.outbox && n.db.outbox[id].letter == row.letter
  {
    BatchHead(n.process.batch, n.db.outbox);
  }

  lemma AnnouncedKept(n: Node, a: Action, m: Node)
    requires Advances(n, m) && AnnouncedOk(n) && AddsOnly(n, a, m)
    ensures AnnouncedOk(m)
  {
    hide Acknowledged;
    forall i | 0 <= i < |m.log| && m.log[i].Announced?
      ensures m.log[i].result in m.db.results && m.db.results[m.log[i].result].answer == m.log[i].answer
    {
      if i < |n.log| { assert m.log[i] == n.log[i]; }
    }
  }

  lemma UnchangedAdvances(n: Node)
    ensures Advances(n, n)
  {
    NothingChanged(n.db);
  }

  /** One instance steps; it and all the others keep the invariant. */
  lemma StepAtKeeps(s: System, digest: Digest, p: PeerId, a: Action, t: System)
    requires SystemOk(s, digest) && StepAt(s, digest, p, a, t) && Informed(s, p, a)
    ensures SystemAdvances(s, t)
    ensures forall q :: q in t.nodes ==> InstanceOk(t, digest, q)
  {
    hide Step, NodeOk, Advances, AddsOnly, Informed, JobsOk, AnswersOk, AckedOk, AnnouncedOk, PacketsOk, AcksOk;
    var n, m := s.nodes[p], t.nodes[p];
    assert InstanceOk(s, digest, p);
    assert NodeOk(digest, m) && Advances(n, m) by { StepKeeps(digest, n, a, m); }
    StepAddsOnly(n, digest, a, m);
    forall q | q in s.nodes ensures Advances(s.nodes[q], t.nodes[q]) {
      if q != p { UnchangedAdvances(s.nodes[q]); }
    }
    forall q | q in t.nodes ensures InstanceOk(t, digest, q) {
      assert InstanceOk(s, digest, q);
      if q == p {
        RowsKept(s, t, p, a);
        AckedKept(s, t, p, a) by { ProcessPart(digest, n); }
        AnnouncedKept(n, a, m);
      } else {
        BystanderKeeps(s, t, digest, q);
      }
    }
  }

  lemma ProcessPart(digest: Digest, n: Node)
    requires NodeOk(digest, n)
    ensures ProcessOk(n.process, n.db, n.log)
  {
  }

  /** An instance that did not move keeps its part of the invariant while others advance. */
  lemma BystanderKeeps(s: System, t: System, digest: Digest, p: PeerId)
    requires SystemAdvances(s, t) && p in s.nodes && InstanceOk(s, digest, p) && t.nodes[p] == s.nodes[p]
    ensures InstanceOk(t, digest, p)
  {
    hide NodeOk, AnnouncedOk, Advances, JobFrom, AnswerFrom, Stored;
    var n := s.nodes[p];
    forall id | id in n.db.inbox ensures JobFrom(t, p, id, n.db.inbox[id].job) {
      RowsStay(s, t, p, id, n.db.inbox[id].job, Answer("", "", "", 0));
    }
    forall id | id in n.db.results ensures AnswerFrom(t, p, id, n.db.results[id].answer) {
      RowsStay(s, t, p, id, Job("", "", None, 0, Work, 0), n.db.results[id].answer);
    }
    forall id | Acknowledged(n.db.outbox, id) && n.db.outbox[id].letter.peer in t.nodes
      ensures var letter := n.db.outbox[id].letter; Stored(t.nodes[letter.peer], letter.kind, id)
    {
      var letter := n.db.outbox[id].letter;
      StoredStays(s.nodes[letter.peer], t.nodes[letter.peer], letter.kind, id);
    }
  }

  /** What `p` admits in the name of a modelled instance is what that instance wrote. */
  lemma AdmittedIsGenuine(s: System, mac: Mac, digest: Digest, p: PeerId, envelope: Option<Envelope>, signature: Json)
    requires SystemOk(s, digest) && p in s.nodes && s.nodes[p].process.Up? && MayArrive(s, envelope, signature)
    ensures var outcome := Admit(p, s.nodes[p].process.peers, mac, envelope, signature);
            outcome.Success? && outcome.value.sender in s.nodes ==>
              var r := outcome.value;
              && Known(s, r.sender, r.id)
              && (LetterAt(s, r.sender, r.id).kind == Reply ==> LetterAt(s, r.sender, r.id).replyTo.Some?)
              && r == RequestOf(r.sender, r.id, LetterAt(s, r.sender, r.id))
              && p == LetterAt(s, r.sender, r.id).peer && |r.content| <= MAX_CONTENT
  {
    hide InstanceOk, AcksOk, Strip, Sendable;
    var outcome := Admit(p, s.nodes[p].process.peers, mac, envelope, signature);
    if outcome.Success? && outcome.value.sender in s.nodes {
      var k := Packet(envelope.value, signature);
      assert k in s.net;
      var from, id := Field(k.envelope, "sender").s, Field(k.envelope, "id").s;
      var letter := LetterAt(s, from, id);
      OutboxIsSendable(s, digest, from, id);
      AdmittedAsSent(p, from, id, letter, s.nodes[p].process.peers, mac, signature);
    }
  }

  lemma OutboxIsSendable(s: System, digest: Digest, q: PeerId, id: Id)
    requires SystemOk(s, digest) && Known(s, q, id)
    ensures Sendable(id, LetterAt(s, q, id))
    ensures LetterAt(s, q, id).kind == Reply ==> LetterAt(s, q, id).replyTo.Some?
    ensures |LetterAt(s, q, id).content| <= MAX_CONTENT
  {
    hide ProcessOk, JobsOk, AnswersOk, AckedOk, AnnouncedOk, PacketsOk, AcksOk;
    assert InstanceOk(s, digest, q);
    OutboxRowOk(digest, s.nodes[q].db.outbox, id);
  }
}
