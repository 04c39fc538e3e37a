/**
 The peer service of one instance as the object it is: three tables it updates in
 place and a bus it appends to. Each method does what the function of `PeerStore`
 it names says; the protocol proofs are about those functions.
 */
module PeerService {
  import opened Wrappers
  import opened Strings
  import opened PeerTypes
  import opened PeerStore
  import PeerNodeProofs
  import Protocol = PeerNode

  /** The inbound message a stored request becomes. */
  datatype WorkMessage = WorkMessage(sender: PeerId, id: Id, text: string, replyTo: Option<Id>, hops: int)

  /** The outbound message a result becomes. */
  datatype Notice = Notice(channel: string, chat: string, text: string, request: Id, result: Id)

  /** What a transport hands back: the reply's `ack` field, or the failure's text. */
  datatype Reply = Ack(id: Id) | Broken(error: string)

  function MessageOf(id: Id, row: InRow): WorkMessage {
    WorkMessage(row.job.sender, id,
                "Paired peer @" + row.job.sender + " requests work (delivery " + id + "):\n" + row.job.content,
                row.job.replyTo, row.job.hops)
  }

  function NoticeOf(id: Id, p: Publication): Notice
    requires p.Send?
  {
    Notice(p.channel, p.chat, "Peer @" + p.answer.sender + " completed your request:\n" + p.answer.content,
           p.answer.request, id)
  }

  /** The tables and the messages once the recovery loop has passed `rows`. */
  function RecoverTables(db: Db, peers: Peers, digest: Digest, rows: seq<(Id, InRow)>, now: int): Db
    decreases |rows|
  {
    if rows == [] then db
    else
      var (before, (id, row)) := (RecoverTables(db, peers, digest, rows[..|rows| - 1], now), rows[|rows| - 1]);
      if row.state == Started then Complete(before, peers, digest, id, INTERRUPTED, now)
      else Claim(before, id).0
  }

  function RecoverMessages(db: Db, peers: Peers, digest: Digest, rows: seq<(Id, InRow)>, now: int): seq<WorkMessage>
    decreases |rows|
  {
    if rows == [] then []
    else
      var k := |rows| - 1;
      var (before, (id, row)) := (RecoverTables(db, peers, digest, rows[..k], now), rows[k]);
      RecoverMessages(db, peers, digest, rows[..k], now) +
      if row.state != Started && (Claim(before, id).1 || row.state == Queued) then [MessageOf(id, row)] else []
  }

  /** Publishing results in order stops at the first one whose publication raises. */
  function PublishTables(db: Db, ids: seq<Id>): Db
    decreases |ids|
  {
    if ids == [] || PublicationOf(db, ids[0]).MissingColumn? then db
    else PublishTables(Published(db, ids[0]), ids[1..])
  }

  function PublishNotices(db: Db, ids: seq<Id>): seq<Notice>
    decreases |ids|
  {
    if ids == [] || PublicationOf(db, ids[0]).MissingColumn? then []
    else
      var p := PublicationOf(db, ids[0]);
      (if p.Send? then [NoticeOf(ids[0], p)] else []) + PublishNotices(Published(db, ids[0]), ids[1..])
  }

  /** Publishing the same results raises in both. */
  ghost predicate SameObstacles(a: Db, b: Db) {
    forall id :: PublicationOf(a, id).MissingColumn? <==> PublicationOf(b, id).MissingColumn?
  }

  lemma PublishingObstructsNothing(db: Db, id: Id)
    ensures SameObstacles(Published(db, id), db)
  {
  }

  /** Publishing in order, by its first result. */
  lemma PublishUnfolds(db: Db, ids: seq<Id>)
    requires ids != []
    ensures var p := PublicationOf(db, ids[0]);
            && PublishTables(db, ids) ==
                 (if p.MissingColumn? then db else PublishTables(Published(db, ids[0]), ids[1..]))
            && PublishNotices(db, ids) ==
                 if p.MissingColumn? then []
                 else (if p.Send? then [NoticeOf(ids[0], p)] else []) + PublishNotices(Published(db, ids[0]), ids[1..])
  {
    hide PublicationOf, Published, NoticeOf;
  }

  /** The first `i` results were published, none of them raised, and the others are still to come. */
  ghost predicate PublishedUpTo(start: Db, ids: seq<Id>, i: nat, db: Db, sent: seq<Notice>)
    requires i <= |ids|
  {
    && PublishTables(start, ids) == PublishTables(db, ids[i..])
    && PublishNotices(start, ids) == sent + PublishNotices(db, ids[i..])
    && SameObstacles(db, start)
    && forall k :: 0 <= k < i ==> !PublicationOf(start, ids[k]).MissingColumn?
  }

  lemma NothingPublished(start: Db, ids: seq<Id>)
    ensures PublishedUpTo(start, ids, 0, start, [])
  {
    hide PublicationOf, PublishTables, PublishNotices;
    assert ids[0..] == ids && [] + PublishNotices(start, ids) == PublishNotices(start, ids);
  }

  lemma AllPublished(start: Db, ids: seq<Id>, db: Db, sent: seq<Notice>)
    requires PublishedUpTo(start, ids, |ids|, db, sent)
    ensures PublishTables(start, ids) == db && PublishNotices(start, ids) == sent
    ensures forall k :: 0 <= k < |ids| ==> !PublicationOf(start, ids[k]).MissingColumn?
  {
    hide PublicationOf, Published;
    assert ids[|ids|..] == [] && sent + [] == sent;
  }

  lemma PublishStep(start: Db, ids: seq<Id>, i: nat, db: Db, sent: seq<Notice>)
    requires i < |ids| && PublishedUpTo(start, ids, i, db, sent)
    ensures var p := PublicationOf(db, ids[i]);
            if p.MissingColumn? then
              PublishTables(start, ids) == db && PublishNotices(start, ids) == sent
              && PublicationOf(start, ids[i]).MissingColumn?
            else
              PublishedUpTo(start, ids, i + 1, Published(db, ids[i]),
                            sent + if p.Send? then [NoticeOf(ids[i], p)] else [])
  {
    hide PublicationOf, Published, NoticeOf, PublishTables, PublishNotices;
    PublishUnfolds(db, ids[i..]);
    PublishingObstructsNothing(db, ids[i]);
    assert ids[i..][0] == ids[i] && ids[i..][1..] == ids[i + 1..];
    var p := PublicationOf(db, ids[i]);
    var notice := if p.Send? then [NoticeOf(ids[i], p)] else [];
    if p.MissingColumn? {
      assert sent + [] == sent;
    } else {
      assert sent + (notice + PublishNotices(Published(db, ids[i]), ids[i + 1..])) ==
             sent + notice + PublishNotices(Published(db, ids[i]), ids[i + 1..]);
    }
  }

  /** The row `_deliver` leaves behind: settled by the reply, or failed for want of a pairing. */
  function Delivered(db: Db, peers: Peers, id: Id, row: OutRow, reply: Reply, now: int): Db
    requires row.attempts >= 0
  {
    if row.letter.peer !in peers then MarkFailed(db, id, "peer pairing removed")
    else if reply == Ack(id) then MarkAcked(db, id)
    else MarkRetry(db, id, if reply.Broken? then Truncate(reply.error, 200) else "missing acknowledgement",
                   row.attempts, now)
  }

  function DeliveredAll(db: Db, peers: Peers, rows: seq<(Id, OutRow)>, replies: seq<Reply>, now: int): Db
    requires |replies| == |rows| && forall i :: 0 <= i < |rows| ==> rows[i].1.attempts >= 0
    decreases |rows|
  {
    if rows == [] then db
    else
      var k := |rows| - 1;
      Delivered(DeliveredAll(db, peers, rows[..k], replies[..k], now), peers, rows[k].0, rows[k].1, replies[k], now)
  }

  class PeerService {
    const self: PeerId
    const peers: Peers
    const mac: Mac
    const digest: Digest
    var outbox: map<Id, OutRow>
    var inbox: map<Id, InRow>
    var results: map<Id, ResRow>
    var inbound: seq<WorkMessage>
    var outbound: seq<Notice>
    var retrying: bool

    ghost function Tables(): Db
      reads this
    {
      Db(outbox, inbox, results)
    }

    /** Opening the store upgrades rows an old release wrote. */
    constructor (self: PeerId, peers: Peers, mac: Mac, digest: Digest, stored: Db)
      ensures Tables() == Upgrade(stored) && inbound == [] && outbound == [] && !retrying
      ensures this.self == self && this.peers == peers && this.mac == mac && this.digest == digest
      // Rows an old release had delivered may have been started; nothing else is touched.
      ensures outbox == stored.outbox && results == stored.results && inbox.Keys == stored.inbox.Keys
      ensures forall id :: id in inbox ==>
                var row := stored.inbox[id];
                inbox[id] == if row.delivered && row.state == Received then row.(state := Started) else row
    {
      this.self, this.peers, this.mac, this.digest := self, peers, mac, digest;
      outbox, results := stored.outbox, stored.results;
      inbox := Upgrade(stored).inbox;
      inbound, outbound, retrying := [], [], false;
    }

    /**
     A refused request changes nothing. An accepted one is a new row beside rows that stay as they were; whoever holds
     the secret of this pairing admits its envelope, as a request with the stripped text and one more hop.
     */
    method Enqueue(peer: PeerId, content: string, replyTo: Option<Id>, hops: int, channel: Option<string>,
                   chat: Option<string>, session: Option<string>, id: Id, now: int)
      returns (r: Result<Id, PeerError>)
      modifies `outbox
      ensures var spec := PeerStore.Enqueue(old(Tables()), peers, id, now, peer, content, replyTo, hops, channel, chat,
                                            session);
              if spec.Success? then r == Success(id) && Tables() == spec.value
              else r == Failure(spec.error) && Tables() == old(Tables())
      ensures Evolves(old(Tables()), Tables())
      ensures r.Success? <==>
                peer in peers && 1 <= |Strip(content)| <= 12_000 && hops < 3 && id !in old(outbox)
      ensures outbox == if r.Failure? then old(outbox) else old(outbox)[id := OutRow(
                Letter(peer, Strip(content), replyTo, hops + 1, Work, now, channel, chat, session),
                Pending, 0, now, None, None)]
      ensures r.Success? ==> id !in old(outbox) && outbox.Keys == old(outbox).Keys + {id}
      ensures r.Success? && |id| <= MAX_ID && hops >= 0 && (replyTo.Some? ==> |replyTo.value| <= MAX_ID) ==>
                peer in peers && Sendable(id, outbox[id].letter) &&
                IsAdmittedAs(self, peer, peers[peer], mac, EnvelopeOf(self, id, outbox[id].letter),
                             WorkRequest(id, self, Strip(content), replyTo, hops + 1))
    {
      hide IsAdmittedAs, EnvelopeOf, Evolves;
      NothingEvolves(Tables());
      if peer !in peers { return Failure(NotPaired); }
      var text := Strip(content);
      if text == "" || |text| > MAX_CONTENT { return Failure(BadContent); }
      if hops >= MAX_REPLY_HOPS { return Failure(HopLimit); }
      if id in outbox { return Failure(IdInUse); }
      var letter := Letter(peer, text, replyTo, hops + 1, Work, now, channel, chat, session);
      NewRowEvolves(Tables(), id, OutRow(letter, Pending, 0, now, None, None));
      outbox := outbox[id := OutRow(letter, Pending, 0, now, None, None)];
      StrippedIsStripped(content);
      if Sendable(id, letter) { LetterIsAdmitted(self, id, letter, peers[peer], mac); }
      return Success(id);
    }

    /** Whatever arrives under this id afterwards is ignored: the first envelope is the one that counts. */
    method StoreInbox(id: Id, sender: PeerId, content: string, replyTo: Option<Id>, hops: int, now: int)
      returns (created: bool)
      modifies `inbox
      ensures (Tables(), created) == PeerStore.StoreInbox(old(Tables()), id, sender, content, replyTo, hops, now)
      ensures Evolves(old(Tables()), Tables()) && (created <==> inbox != old(inbox))
      ensures created <==> id !in old(inbox)
      ensures inbox == if !created then old(inbox)
                       else old(inbox)[id := InRow(Job(sender, content, replyTo, hops, Work, now), Received, false)]
      ensures forall other, text, reference, h, t ::
                PeerStore.StoreInbox(Tables(), id, other, text, reference, h, t) == (Tables(), false)
    {
      created := id !in inbox;
      if created {
        inbox := inbox[id := InRow(Job(sender, content, replyTo, hops, Work, now), Received, false)];
      }
    }

    /**
     `row` is what the caller read; a recovered queued row lost its message with the last process. No second claim of
     the row succeeds, and if the caller read the row as it was, a message means that work on it may begin.
     */
    method PublishInbox(id: Id, row: InRow)
      modifies `inbox, `inbound
      ensures Tables() == Claim(old(Tables()), id).0
      ensures inbound == old(inbound) +
                if Claim(old(Tables()), id).1 || row.state == Queued then [MessageOf(id, row)] else []
      ensures Evolves(old(Tables()), Tables())
      ensures id in inbox ==> forall later :: Evolves(Tables(), later) ==> !Claim(later, id).1
      ensures inbox == if id in old(inbox) && old(inbox)[id].state == Received
                       then old(inbox)[id := old(inbox)[id].(state := Queued)] else old(inbox)
      ensures inbound != old(inbound) ==>
                && |inbound| == |old(inbound)| + 1 && inbound[..|old(inbound)|] == old(inbound)
                && var message := inbound[|old(inbound)|];
                   && message.sender == row.job.sender && message.id == id
                   && message.replyTo == row.job.replyTo && message.hops == row.job.hops
                   && message.text == "Paired peer @" + row.job.sender + " requests work (delivery " + id + "):\n"
                                      + row.job.content
      ensures id in old(inbox) && old(inbox)[id] == row ==>
                (inbound != old(inbound) <==> row.state in {Received, Queued}) &&
                (inbound != old(inbound) <==> Begin(Tables(), id).1)
    {
      var claimed := id in inbox && inbox[id].state == Received;
      if claimed {
        inbox := inbox[id := inbox[id].(state := Queued)];
      }
      if !claimed && row.state != Queued {
        return;
      }
      inbound := inbound + [MessageOf(id, row)];
    }

    /** Only a queued row is begun; once begun it is never begun or claimed again, whatever follows. */
    method BeginInbox(id: Id) returns (ok: bool)
      modifies `inbox
      ensures (Tables(), ok) == Begin(old(Tables()), id)
      ensures ok <==> id in old(inbox) && old(inbox)[id].state == Queued
      ensures inbox == if ok then old(inbox)[id := old(inbox)[id].(state := Started)] else old(inbox)
      ensures Evolves(old(Tables()), Tables())
      ensures ok ==> forall later :: Evolves(Tables(), later) ==> !Begin(later, id).1 && !Claim(later, id).1
    {
      ok := id in inbox && inbox[id].state == Queued;
      if ok {
        inbox := inbox[id := inbox[id].(state := Started)];
      }
    }

    /**
     The row of a work request is completed for good; nothing said before changes, and one row at most is added: the
     reply, which reports the content to the sender and can be sent. Completing again changes nothing at all.
     */
    method CompleteInbox(id: Id, content: string, now: int)
      modifies `inbox, `outbox
      ensures Tables() == Complete(old(Tables()), peers, digest, id, content, now)
      ensures IsCompletion(old(Tables()), Tables(), peers, digest, id, content, now)
    {
      CompletionSticks(Tables(), peers, digest, id, content, now);
      hide IsCompletion;
      if id !in inbox || inbox[id].job.kind != Work {
        return;
      }
      var row := inbox[id];
      var text := Truncate(Strip(content), MAX_CONTENT);
      if text == "" {
        text := NO_RESPONSE;
      }
      inbox := inbox[id := row.(state := Completed, delivered := true)];
      if row.job.sender in peers {
        var rid := ResultId(digest, id);
        if rid !in outbox {
          var letter := Letter(row.job.sender, text, Some(id), row.job.hops, Kind.Reply, now, None, None, None);
          outbox := outbox[rid := OutRow(letter, Pending, 0, now, None, None)];
        }
      }
    }

    /**
     Reads, publishes and marks one result; `raised` when the peer branch is taken. A result that was published is
     never published again, whatever follows; one that raised is as it was, and raises again.
     */
    method PublishResult(id: Id) returns (raised: bool)
      modifies `results, `outbound
      ensures raised == PublicationOf(old(Tables()), id).MissingColumn?
      ensures Tables() == Published(old(Tables()), id)
      ensures outbound == old(outbound) +
                var p := PublicationOf(old(Tables()), id); if p.Send? then [NoticeOf(id, p)] else []
      ensures Evolves(old(Tables()), Tables())
      // A result is told exactly once, where its request came from, if that place has a name and is no peer.
      ensures outbound != old(outbound) <==>
                && id in old(results) && !old(results)[id].published && old(results)[id].answer.request in outbox
                && var origin := outbox[old(results)[id].answer.request].letter;
                   && origin.returnChannel.Some? && origin.returnChannel.value !in {"", "peer"}
                   && origin.returnChat.Some? && origin.returnChat.value != ""
      ensures outbound != old(outbound) ==>
                && results == old(results)[id := ResRow(old(results)[id].answer, true)]
                && var answer := old(results)[id].answer;
                   var origin := outbox[answer.request].letter;
                   outbound == old(outbound) +
                     [Notice(origin.returnChannel.value, origin.returnChat.value,
                             "Peer @" + answer.sender + " completed your request:\n" + answer.content,
                             answer.request, id)]
      ensures outbound == old(outbound) ==> results == old(results)
      ensures outbound != old(outbound) ==>
                forall later :: Evolves(Tables(), later) ==> PublicationOf(later, id) == Nothing
      ensures raised ==> Tables() == old(Tables()) && PublicationOf(Tables(), id) == MissingColumn
    {
      raised := false;
      if id !in results || results[id].published {
        return;
      }
      var answer := results[id].answer;
      if answer.request !in outbox {
        return;
      }
      var origin := outbox[answer.request].letter;
      if origin.returnChannel == Some("peer") {
        raised := true;
      } else if Truthy(origin.returnChannel) && Truthy(origin.returnChat) {
        var text := "Peer @" + answer.sender + " completed your request:\n" + answer.content;
        outbound := outbound + [Notice(origin.returnChannel.value, origin.returnChat.value, text, answer.request, id)];
        results := results[id := results[id].(published := true)];
      }
    }

    /** The row of a new result, and the end of the request it answers. */
    method StoreResult(id: Id, sender: PeerId, request: Id, content: string, now: int)
      modifies `results, `outbox
      ensures Tables() == Accept(old(Tables()), id, sender, request, content, now)
      ensures id in results
      ensures forall k :: k in results && k != id ==> k in old(results) && results[k] == old(results)[k]
      ensures id in old(results) ==> results == old(results) && outbox == old(outbox)
      ensures id !in old(results) ==>
                && results[id].answer ==
                     Answer(request, sender, if |content| <= 12_000 then content else content[..12_000], now)
                && outbox ==
                     if request !in old(outbox) || old(outbox)[request].letter.peer != sender then old(outbox)
                     else old(outbox)[request := old(outbox)[request].(
                            state := Finished, result := Some(results[id].answer.content))]
    {
      if id !in results {
        var text := Truncate(content, MAX_CONTENT);
        results := results[id := ResRow(Answer(request, sender, text, now), false)];
        if request in outbox && outbox[request].letter.peer == sender {
          outbox := outbox[request := outbox[request].(state := Finished, result := Some(text))];
        }
      }
    }

    /** The first content stored under a result id is the one that stays; accepting another changes nothing. */
    method AcceptResult(id: Id, sender: PeerId, request: Id, content: string, now: int) returns (raised: bool)
      modifies `results, `outbox, `outbound
      ensures var stored := Accept(old(Tables()), id, sender, request, content, now);
              var p := PublicationOf(stored, id);
              && raised == p.MissingColumn? && Tables() == Published(stored, id)
              && outbound == old(outbound) + if p.Send? then [NoticeOf(id, p)] else []
      ensures Evolves(old(Tables()), Tables())
      ensures id in results && (id in old(results) ==> results[id].answer == old(results)[id].answer)
      // A new result has the first 12,000 characters of what was said; the sender's own request is finished by it.
      ensures forall k :: k in results && k != id ==> k in old(results) && results[k] == old(results)[k]
      ensures id !in old(results) ==>
                results[id].answer ==
                  Answer(request, sender, if |content| <= 12_000 then content else content[..12_000], now)
      ensures outbox == if id in old(results) || request !in old(outbox) || old(outbox)[request].letter.peer != sender
                        then old(outbox)
                        else old(outbox)[request := old(outbox)[request].(
                               state := Finished, result := Some(results[id].answer.content))]
      ensures forall other, about, text, t :: Accept(Tables(), id, other, about, text, t) == Tables()
    {
      AcceptedIsIgnored(id);
      AcceptanceSticks(Tables(), id, sender, request, content, now);
      hide Evolves, Accept;
      ghost var before := Tables();
      StoreResult(id, sender, request, content, now);
      ghost var stored := Tables();
      raised := PublishResult(id);
      EvolvesIsTransitive(before, stored, Tables());
    }

    /**
     One envelope, handled without interruption. The reply is the acknowledged id, or `None`
     when an exception became an error reply.
     */
    method HandleEnvelope(envelope: Option<Envelope>, signature: Json, now: int) returns (reply: Option<Id>)
      modifies `inbox, `outbox, `results, `inbound, `outbound
      ensures var before := old(Tables());
              match Admit(self, peers, mac, envelope, signature)
              case Failure(_) =>
                reply == None && Tables() == before && inbound == old(inbound) && outbound == old(outbound)
              case Success(WorkRequest(id, sender, content, replyTo, hops)) =>
                var (stored, created) := PeerStore.StoreInbox(before, id, sender, content, replyTo, hops, now);
                && reply == Some(id) && outbound == old(outbound)
                && Tables() == (if created then Claim(stored, id).0 else before)
                && inbound == old(inbound) + (if created then [MessageOf(id, stored.inbox[id])] else [])
              case Success(ResultRequest(id, sender, request, content)) =>
                var stored := Accept(before, id, sender, request, content, now);
                var p := PublicationOf(stored, id);
                && reply == (if p.MissingColumn? then None else Some(id))
                && Tables() == Published(stored, id) && inbound == old(inbound)
                && outbound == old(outbound) + if p.Send? then [NoticeOf(id, p)] else []
    {
      hide Evolves, PublicationOf, Published, Accept, Admit, MessageOf, NoticeOf;
      match Admit(self, peers, mac, envelope, signature)
      case Failure(_) =>
        reply := None;
      case Success(WorkRequest(id, sender, content, replyTo, hops)) =>
        var created := StoreInbox(id, sender, content, replyTo, hops, now);
        if created && inbox[id].state == Received {
          PublishInbox(id, inbox[id]);
        }
        reply := Some(id);
      case Success(ResultRequest(id, sender, request, content)) =>
        var raised := AcceptResult(id, sender, request, content, now);
        reply := if raised then None else Some(id);
    }

    method PublishPendingResults(ids: seq<Id>) returns (raised: bool)
      modifies `results, `outbound
      ensures Tables() == PublishTables(old(Tables()), ids)
      ensures outbound == old(outbound) + PublishNotices(old(Tables()), ids)
      ensures raised == exists i :: 0 <= i < |ids| && PublicationOf(old(Tables()), ids[i]).MissingColumn?
    {
      hide PublicationOf, Published, NoticeOf, Evolves, PublishTables, PublishNotices, PublishedUpTo;
      raised := false;
      ghost var start := Tables();
      ghost var sent: seq<Notice> := [];
      NothingPublished(start, ids);
      for i := 0 to |ids|
        invariant outbound == old(outbound) + sent && PublishedUpTo(start, ids, i, Tables(), sent)
      {
        PublishStep(start, ids, i, Tables(), sent);
        ghost var p := PublicationOf(Tables(), ids[i]);
        raised := PublishResult(ids[i]);
        if raised {
          return;
        }
        sent := sent + if p.Send? then [NoticeOf(ids[i], p)] else [];
      }
      AllPublished(start, ids, Tables(), sent);
    }

    /** The recovery loop of `start` over the rows read before the listeners opened. */
    method RecoverInbox(rows: seq<(Id, InRow)>, now: int)
      modifies `inbox, `outbox, `inbound
      ensures Tables() == RecoverTables(old(Tables()), peers, digest, rows, now)
      ensures inbound == old(inbound) + RecoverMessages(old(Tables()), peers, digest, rows, now)
    {
      ghost var before := Tables();
      for i := 0 to |rows|
        invariant Tables() == RecoverTables(before, peers, digest, rows[..i], now)
        invariant inbound == old(inbound) + RecoverMessages(before, peers, digest, rows[..i], now)
      {
        hide Complete, MessageOf;
        assert rows[..i + 1][..i] == rows[..i];
        var (id, row) := rows[i];
        if row.state == Started {
          CompleteInbox(id, INTERRUPTED, now);
        } else {
          PublishInbox(id, row);
        }
      }
      assert rows[..|rows|] == rows;
    }

    /**
     `rows` and `ids` are what the two start-up queries returned. The retry loop starts only
     if publishing the stored results did not raise.
     */
    method Start(rows: seq<(Id, InRow)>, ids: seq<Id>, now: int)
      requires IsPendingInbox(Tables(), rows)
      modifies this
      ensures var recovered := RecoverTables(old(Tables()), peers, digest, rows, now);
              && Tables() == PublishTables(recovered, ids)
              && inbound == old(inbound) + RecoverMessages(old(Tables()), peers, digest, rows, now)
              && outbound == old(outbound) + PublishNotices(recovered, ids)
              && (retrying <==>
                    (old(retrying) || forall i :: 0 <= i < |ids| ==> !PublicationOf(recovered, ids[i]).MissingColumn?))
    {
      hide RecoverTables, RecoverMessages, PublishTables, PublishNotices, PublicationOf, IsPendingInbox;
      RecoverInbox(rows, now);
      var raised := PublishPendingResults(ids);
      if !raised {
        retrying := true;
      }
    }

    /** `_mark_acked`, `_mark_failed` and `_mark_retry`: one `UPDATE outbox` each. */
    method UpdateRow(id: Id, state: OutState, attempts: Option<(int, int)>, error: Option<string>)
      modifies `outbox
      ensures outbox == if id !in old(outbox) then old(outbox)
                        else var row := old(outbox)[id].(state := state, lastError := error);
                             old(outbox)[id := if attempts.None? then row
                                               else row.(attempts := attempts.value.0, nextAttempt := attempts.value.1)]
    {
      if id in outbox {
        outbox := outbox[id := outbox[id].(state := state, lastError := error)];
        if attempts.Some? {
          outbox := outbox[id := outbox[id].(attempts := attempts.value.0, nextAttempt := attempts.value.1)];
        }
      }
    }

    /**
     `row` is the pending row the loop read; `reply` is what the transport made of the envelope. No letter and no other
     row changes. The row is acknowledged exactly if its peer is paired and acknowledged its id; a row that stays
     pending has used up one of its attempts and has some left.
     */
    method Deliver(id: Id, row: OutRow, reply: Reply, now: int) returns (sent: Option<(Envelope, string)>)
      requires row.attempts >= 0
      modifies `outbox
      ensures Tables() == Delivered(old(Tables()), peers, id, row, reply, now)
      ensures sent == if row.letter.peer !in peers then None
                      else var data := EnvelopeOf(self, id, row.letter);
                           Some((data, mac(peers[row.letter.peer], data)))
      ensures Evolves(old(Tables()), Tables()) && outbox.Keys == old(outbox).Keys
      ensures forall k :: k in outbox && k != id ==> outbox[k] == old(outbox)[k]
      ensures id in outbox ==> (outbox[id].state == Acked <==> row.letter.peer in peers && reply == Ack(id))
      ensures id in outbox ==>
                outbox[id].lastError ==
                  (if row.letter.peer !in peers then Some("peer pairing removed")
                   else match reply
                        case Ack(acked) => if acked == id then None else Some("missing acknowledgement")
                        case Broken(error) => Some(if |error| <= 200 then error else error[..200]))
      ensures id in outbox ==>
                (outbox[id].state == Failed <==>
                   row.letter.peer !in peers || (reply != Ack(id) && row.attempts + 1 >= 8)) &&
                outbox[id].state in {Acked, Failed, Pending}
      ensures id in outbox && sent.Some? && reply != Ack(id) ==>
                outbox[id].attempts == row.attempts + 1 && outbox[id].nextAttempt == now + RetryDelay(row.attempts + 1)
      ensures id in outbox && outbox[id].state == Pending ==>
                sent.Some? && outbox[id].attempts == row.attempts + 1 < MAX_ATTEMPTS && outbox[id].nextAttempt > now
    {
      DelayIsPositive(row.attempts + 1);
      DeliveryKeepsLetters(Tables(), peers, id, row, reply, now);
      hide Evolves, EnvelopeOf, RetryDelay;
      if row.letter.peer !in peers {
        UpdateRow(id, Failed, None, Some("peer pairing removed"));
        return None;
      }
      var data := EnvelopeOf(self, id, row.letter);
      sent := Some((data, mac(peers[row.letter.peer], data)));
      if reply == Ack(id) {
        UpdateRow(id, Acked, None, None);
      } else {
        var error := if reply.Broken? then Truncate(reply.error, 200) else "missing acknowledgement";
        var tried := row.attempts + 1;
        var state := if tried >= MAX_ATTEMPTS then Failed else Pending;
        UpdateRow(id, state, Some((tried, now + RetryDelay(tried))), Some(error));
      }
    }

    /** One round of the retry loop over the rows its query returned. */
    method DeliverRound(rows: seq<(Id, OutRow)>, replies: seq<Reply>, now: int)
      requires IsPendingBatch(Tables(), now, rows) && |replies| == |rows|
      requires forall i :: 0 <= i < |rows| ==> rows[i].1.attempts >= 0
      modifies `outbox
      ensures Tables() == DeliveredAll(old(Tables()), peers, rows, replies, now)
    {
      ghost var before := Tables();
      for i := 0 to |rows|
        invariant Tables() == DeliveredAll(before, peers, rows[..i], replies[..i], now)
      {
        assert rows[..i + 1][..i] == rows[..i] && replies[..i + 1][..i] == replies[..i];
        var _ := Deliver(rows[i].0, rows[i].1, replies[i], now);
      }
      assert rows[..|rows|] == rows && replies[..|rows|] == replies;
    }
  }

  /** What one delivery makes of the stored row `was`; `row` is what the loop read before. */
  function SettledRow(was: OutRow, peers: Peers, id: Id, row: OutRow, reply: Reply, now: int): OutRow
    requires row.attempts >= 0
  {
    if row.letter.peer !in peers then was.(state := Failed, lastError := Some("peer pairing removed"))
    else match reply
         case Ack(acked) =>
           if acked == id then was.(state := Acked, lastError := None)
           else TriedRow(was, row.attempts + 1, "missing acknowledgement", now)
         case Broken(error) => TriedRow(was, row.attempts + 1, if |error| <= 200 then error else error[..200], now)
  }

  function TriedRow(was: OutRow, attempts: nat, error: string, now: int): OutRow {
    OutRow(was.letter, if attempts < 8 then Pending else Failed, attempts, now + RetryDelay(attempts), Some(error),
           was.result)
  }

  lemma DeliveredSettlesRow(db: Db, peers: Peers, id: Id, row: OutRow, reply: Reply, now: int)
    requires row.attempts >= 0 && id in db.outbox
    ensures Delivered(db, peers, id, row, reply, now).outbox ==
            db.outbox[id := SettledRow(db.outbox[id], peers, id, row, reply, now)]
  {
    hide RetryDelay;
  }

  /** Every row of a round is settled by its own reply, and no other row is touched. */
  ghost predicate EachSettled(was: map<Id, OutRow>, outbox: map<Id, OutRow>, peers: Peers, rows: seq<(Id, OutRow)>,
                              replies: seq<Reply>, now: int)
    requires |replies| == |rows| && forall i :: 0 <= i < |rows| ==> rows[i].1.attempts >= 0
  {
    && outbox.Keys == was.Keys
    && (forall k :: k in was && (forall i :: 0 <= i < |rows| ==> rows[i].0 != k) ==> outbox[k] == was[k])
    && forall i :: 0 <= i < |rows| ==>
         var (id, row) := rows[i];
         id in was && outbox[id] == SettledRow(was[id], peers, id, row, replies[i], now)
  }

  /** In a round no row's delivery touches another's. */
  lemma {:induction false} EachRowIsSettled(db: Db, peers: Peers, rows: seq<(Id, OutRow)>, replies: seq<Reply>,
                                            now: int)
    requires |replies| == |rows| && forall i :: 0 <= i < |rows| ==> rows[i].1.attempts >= 0
    requires forall i, j :: 0 <= i < j < |rows| ==> rows[i].0 != rows[j].0
    requires forall i :: 0 <= i < |rows| ==> rows[i].0 in db.outbox
    ensures EachSettled(db.outbox, DeliveredAll(db, peers, rows, replies, now).outbox, peers, rows, replies, now)
    decreases |rows|
  {
    if rows == [] {
    } else {
      hide Delivered, EachSettled, SettledRow;
      var k := |rows| - 1;
      var before := DeliveredAll(db, peers, rows[..k], replies[..k], now);
      EachRowIsSettled(db, peers, rows[..k], replies[..k], now);
      LastIsSettled(db, peers, rows, replies, now);
      OneMoreIsSettled(db.outbox, before.outbox, peers, rows, replies, now);
      DeliveredSettlesRow(before, peers, rows[k].0, rows[k].1, replies[k], now);
    }
  }

  lemma OneMoreIsSettled(was: map<Id, OutRow>, before: map<Id, OutRow>, peers: Peers, rows: seq<(Id, OutRow)>,
                         replies: seq<Reply>, now: int)
    requires rows != [] && |replies| == |rows| && forall i :: 0 <= i < |rows| ==> rows[i].1.attempts >= 0
    requires forall i, j :: 0 <= i < j < |rows| ==> rows[i].0 != rows[j].0
    requires forall i :: 0 <= i < |rows| ==> rows[i].0 in was
    requires var k := |rows| - 1; EachSettled(was, before, peers, rows[..k], replies[..k], now)
    ensures var (k, last) := (|rows| - 1, rows[|rows| - 1].0);
            && last in before && before[last] == was[last]
            && EachSettled(was, before[last := SettledRow(before[last], peers, last, rows[k].1, replies[k], now)],
                           peers, rows, replies, now)
  {
    hide SettledRow;
    var k := |rows| - 1;
    var last := rows[k].0;
    assert forall i :: 0 <= i < k ==> rows[..k][i] == rows[i] && replies[..k][i] == replies[i];
    assert before[last] == was[last];
    forall id | id in was && (forall i :: 0 <= i < |rows| ==> rows[i].0 != id) ensures before[id] == was[id] {
      assert forall i :: 0 <= i < k ==> rows[..k][i].0 != id;
    }
  }

  lemma LastIsSettled(db: Db, peers: Peers, rows: seq<(Id, OutRow)>, replies: seq<Reply>, now: int)
    requires rows != [] && |replies| == |rows| && forall i :: 0 <= i < |rows| ==> rows[i].1.attempts >= 0
    ensures var k := |rows| - 1;
            DeliveredAll(db, peers, rows, replies, now) ==
            Delivered(DeliveredAll(db, peers, rows[..k], replies[..k], now), peers, rows[k].0, rows[k].1, replies[k],
                      now)
  {
    hide Delivered;
  }

  /** One result more is published after the others, unless one of them raised. */
  lemma {:induction false} PublishOneMore(db: Db, ids: seq<Id>, id: Id)
    ensures PublishTables(db, []) == db && PublishNotices(db, []) == []
    ensures var (before, p) := (PublishTables(db, ids), PublicationOf(PublishTables(db, ids), id));
            if exists i :: 0 <= i < |ids| && PublicationOf(db, ids[i]).MissingColumn? then
              PublishTables(db, ids + [id]) == before && PublishNotices(db, ids + [id]) == PublishNotices(db, ids)
            else
              && PublishTables(db, ids + [id]) == (if p.Send? then MarkPublished(before, id) else before)
              && PublishNotices(db, ids + [id]) == PublishNotices(db, ids) + if p.Send? then [NoticeOf(id, p)] else []
    decreases |ids|
  {
    hide PublicationOf, MarkPublished, NoticeOf, PublishTables, PublishNotices;
    PublishNothing(db);
    PublishUnfolds(db, ids + [id]);
    if ids == [] {
      assert [] + [id] == [id] && (ids + [id])[1..] == [];
      PublishNothing(Published(db, id));
    } else {
      PublishUnfolds(db, ids);
      assert (ids + [id])[1..] == ids[1..] + [id];
      PublishingObstructsNothing(db, ids[0]);
      PublishOneMore(Published(db, ids[0]), ids[1..], id);
      assert forall i :: 1 <= i < |ids| ==> ids[i] == ids[1..][i - 1];
      assert forall i :: 0 <= i < |ids[1..]| ==> ids[1..][i] == ids[i + 1];
    }
  }

  lemma PublishNothing(db: Db)
    ensures PublishTables(db, []) == db && PublishNotices(db, []) == []
  {
  }

  // ----- what a caller of the methods may rely on ---------------------------------------

  /** Whoever holds the secret admits the signed envelope, and as that request. */
  ghost predicate IsAdmittedAs(self: PeerId, peer: PeerId, secret: Secret, mac: Mac, data: Envelope, request: Request) {
    forall theirs: Peers :: self in theirs && theirs[self] == secret ==>
      Admit(peer, theirs, mac, Some(data), Str(mac(secret, data))) == Success(request)
  }

  lemma LetterIsAdmitted(self: PeerId, id: Id, letter: Letter, secret: Secret, mac: Mac)
    requires Sendable(id, letter)
    ensures IsAdmittedAs(self, letter.peer, secret, mac, EnvelopeOf(self, id, letter), RequestOf(self, id, letter))
  {
    hide Admit, EnvelopeOf;
    forall theirs: Peers | self in theirs && theirs[self] == secret
      ensures var (data, request) := (EnvelopeOf(self, id, letter), RequestOf(self, id, letter));
              Admit(letter.peer, theirs, mac, Some(data), Str(mac(secret, data))) == Success(request)
    {
      ReceiverReadsTheSentLetter(self, id, letter, secret, theirs, mac);
    }
  }

  lemma NothingEvolves(db: Db)
    ensures Evolves(db, db)
  {
  }

  lemma NewRowEvolves(db: Db, id: Id, row: OutRow)
    requires id !in db.outbox
    ensures Evolves(db, db.(outbox := db.outbox[id := row]))
  {
  }

  lemma StrippedIsStripped(content: string)
    requires Strip(content) != ""
    ensures Strip(Strip(content)) != ""
  {
    StrippedStartsWithText(content);
    TextWithFirstCharIsNotBlank(Strip(content));
  }

  lemma AcceptedIsIgnored(id: Id)
    ensures forall db: Db, other, about, text, t :: id in db.results ==> Accept(db, id, other, about, text, t) == db
  {
  }

  lemma AcceptanceSticks(db: Db, id: Id, sender: PeerId, request: Id, content: string, now: int)
    ensures Evolves(db, Accept(db, id, sender, request, content, now))
  {
  }

  lemma DeliveryKeepsLetters(db: Db, peers: Peers, id: Id, row: OutRow, reply: Reply, now: int)
    requires row.attempts >= 0
    ensures Evolves(db, Delivered(db, peers, id, row, reply, now))
  {
    hide RetryDelay;
  }

  lemma {:induction false} DelayIsPositive(attempts: nat)
    ensures RetryDelay(attempts) > 0
  {
  }

  /** The job is closed; if its sender is paired and nothing holds the reply's id, the content is reported to it. */
  predicate SaysOnce(db: Db, after: Db, peers: Peers, rid: Id, id: Id, content: string, now: int) {
    if id !in db.inbox || db.inbox[id].job.kind != Work then after == db
    else
      var row := db.inbox[id];
      && after.inbox == db.inbox[id := InRow(row.job, Completed, true)]
      && if row.job.sender !in peers || rid in db.outbox then after.outbox == db.outbox
         else
           && rid in after.outbox && Reports(content, after.outbox[rid].letter.content)
           && after.outbox == db.outbox[rid := OutRow(
                Letter(row.job.sender, after.outbox[rid].letter.content, Some(id), row.job.hops, Kind.Reply, now,
                       None, None, None), Pending, 0, now, None, None)]
  }

  lemma CompletionSaysOnce(db: Db, peers: Peers, digest: Digest, id: Id, content: string, now: int)
    ensures SaysOnce(db, Complete(db, peers, digest, id, content, now), peers, ResultId(digest, id), id, content, now)
  {
    ReplyTextReports(content);
    hide ReplyText, Reports, ResultId;
  }

  /**
   The work row is completed for good; outbox rows stay as they are, and only the reply's can be new, which can be sent;
   completing again changes nothing.
   */
  ghost predicate IsCompletion(db: Db, after: Db, peers: Peers, digest: Digest, id: Id, content: string, now: int) {
    var rid := ResultId(digest, id);
    && SaysOnce(db, after, peers, rid, id, content, now)
    && Evolves(db, after) && after.results == db.results
    && (forall k :: k in db.outbox ==> k in after.outbox && after.outbox[k] == db.outbox[k])
    && after.outbox.Keys <= db.outbox.Keys + {rid}
    && (id in db.inbox && db.inbox[id].job.kind == Work ==>
          forall later :: Evolves(after, later) ==> later.inbox[id].state == Completed && !Begin(later, id).1)
    && (id in db.inbox && |id| <= MAX_ID && 1 <= db.inbox[id].job.hops <= MAX_REPLY_HOPS
        && after.outbox != db.outbox ==>
          rid in after.outbox && Sendable(rid, after.outbox[rid].letter))
    && forall text, t :: Complete(after, peers, digest, id, text, t) == after
  }

  lemma CompletionSticks(db: Db, peers: Peers, digest: Digest, id: Id, content: string, now: int)
    ensures IsCompletion(db, Complete(db, peers, digest, id, content, now), peers, digest, id, content, now)
  {
    CompletionSaysOnce(db, peers, digest, id, content, now);
    CompletionKeepsRows(db, peers, digest, id, content, now);
    if id in db.inbox && |id| <= MAX_ID && 1 <= db.inbox[id].job.hops <= MAX_REPLY_HOPS {
      ReplyCanBeSent(db, peers, digest, id, content, now);
    }
    forall text, t
      ensures Complete(Complete(db, peers, digest, id, content, now), peers, digest, id, text, t) ==
              Complete(db, peers, digest, id, content, now)
    {
      CompletedAgain(db, peers, digest, id, content, now, text, t);
    }
    hide Complete, ResultId, Sendable, SaysOnce;
  }

  lemma CompletionKeepsRows(db: Db, peers: Peers, digest: Digest, id: Id, content: string, now: int)
    ensures var after := Complete(db, peers, digest, id, content, now);
            && Evolves(db, after) && after.results == db.results
            && (forall k :: k in db.outbox ==> k in after.outbox && after.outbox[k] == db.outbox[k])
            && after.outbox.Keys <= db.outbox.Keys + {ResultId(digest, id)}
            && (id in db.inbox && db.inbox[id].job.kind == Work ==>
                  id in after.inbox && after.inbox[id].state == Completed)
  {
    hide ReplyText, ResultId;
  }

  lemma ReplyCanBeSent(db: Db, peers: Peers, digest: Digest, id: Id, content: string, now: int)
    requires id in db.inbox && |id| <= MAX_ID && 1 <= db.inbox[id].job.hops <= MAX_REPLY_HOPS
    ensures var (rid, after) := (ResultId(digest, id), Complete(db, peers, digest, id, content, now));
            after.outbox != db.outbox ==> rid in after.outbox && Sendable(rid, after.outbox[rid].letter)
  {
    ResultIdsMeetIff(digest, id, id);
    PeerNodeProofs.ReplyTextIsSendable(content);
    hide ReplyText, ResultId;
  }

  /** A second completion finds the row completed and the reply's id taken. */
  lemma CompletedAgain(db: Db, peers: Peers, digest: Digest, id: Id, content: string, now: int, text: string, t: int)
    ensures var after := Complete(db, peers, digest, id, content, now);
            Complete(after, peers, digest, id, text, t) == after
  {
    hide ReplyText, ResultId;
    var after := Complete(db, peers, digest, id, content, now);
    if id in db.inbox && db.inbox[id].job.kind == Work {
      assert after.inbox[id := after.inbox[id].(state := Completed, delivered := true)] == after.inbox;
    }
  }

  // ----- what the methods add up to -----------------------------------------------------

  /** The protocol's recovery steps, taken `k` times in a row. */
  function RecoverSteps(n: Protocol.Node, digest: Digest, now: int, k: nat): Protocol.Node
    requires n.process.Up? && n.process.next == 0 && k <= |n.process.snapshot|
    ensures RecoverSteps(n, digest, now, k).process.Up?
    ensures RecoverSteps(n, digest, now, k).process.next == k
    ensures RecoverSteps(n, digest, now, k).process.snapshot == n.process.snapshot
    ensures RecoverSteps(n, digest, now, k).process.peers == n.process.peers
  {
    if k == 0 then n else Protocol.RecoverRow(RecoverSteps(n, digest, now, k - 1), digest, now)
  }

  function MessageIds(messages: seq<WorkMessage>): seq<Id> {
    seq(|messages|, i requires 0 <= i < |messages| => messages[i].id)
  }

  /** Left alone, the recovery loop does to tables and bus exactly what the protocol's recovery steps do. */
  lemma {:induction false} RecoveryFollowsProtocol(n: Protocol.Node, digest: Digest, now: int, k: nat)
    requires n.process.Up? && n.process.next == 0 && k <= |n.process.snapshot|
    ensures var (m, rows) := (RecoverSteps(n, digest, now, k), n.process.snapshot[..k]);
            && m.db == RecoverTables(n.db, n.process.peers, digest, rows, now)
            && m.process.published ==
                 n.process.published + MessageIds(RecoverMessages(n.db, n.process.peers, digest, rows, now))
  {
    hide Complete, Protocol.CompletionEvents, MessageIds;
    var rows := n.process.snapshot[..k];
    if k == 0 {
      NoMessages();
    } else {
      RecoveryFollowsProtocol(n, digest, now, k - 1);
      assert rows[..k - 1] == n.process.snapshot[..k - 1];
      var earlier := RecoverMessages(n.db, n.process.peers, digest, rows[..k - 1], now);
      var (id, row) := rows[k - 1];
      IdsOfAppended(earlier, MessageOf(id, row));
      assert earlier + [] == earlier;
      MessageNamesItsRow(id, row);
    }
  }

  lemma NoMessages()
    ensures MessageIds([]) == []
  {
  }

  lemma MessageNamesItsRow(id: Id, row: InRow)
    ensures MessageOf(id, row).id == id
  {
  }

  lemma IdsOfAppended(messages: seq<WorkMessage>, last: WorkMessage)
    ensures MessageIds(messages + [last]) == MessageIds(messages) + [last.id]
  {
  }

  /** Handling a new work envelope without interruption is the protocol's store and publish in a row. */
  lemma HandlingFollowsProtocol(n: Protocol.Node, id: Id, sender: PeerId, content: string, replyTo: Option<Id>,
                                hops: int, now: int, stored: Protocol.Node, published: Protocol.Node)
    requires n.process.Up? && id !in n.db.inbox
    requires Protocol.Stores(n, id, sender, content, replyTo, hops, now, stored)
    requires Protocol.PublishesStored(stored, id, published)
    ensures published.db == Claim(PeerStore.StoreInbox(n.db, id, sender, content, replyTo, hops, now).0, id).0
    ensures published.process ==
            n.process.(handlers := n.process.handlers - {id}, published := n.process.published + [id])
  {
    assert n.process.handlers + {id} - {id} == n.process.handlers - {id};
  }

  /** A stored, unpublished result answers a request that was sent from a peer's own turn. */
  predicate AnswersPeerTurn(db: Db, id: Id) {
    && id in db.results && !db.results[id].published
    && db.results[id].answer.request in db.outbox
    && db.outbox[db.results[id].answer.request].letter.returnChannel == Some("peer")
  }

  lemma RecoveryKeepsPublication(db: Db, peers: Peers, digest: Digest, row: (Id, InRow), now: int, id: Id)
    ensures var next := if row.1.state == Started then Complete(db, peers, digest, row.0, INTERRUPTED, now)
                        else Claim(db, row.0).0;
            AnswersPeerTurn(next, id) <==> AnswersPeerTurn(db, id)
  {
    hide ReplyText;
  }

  lemma {:induction false} RecoveryKeepsPublications(db: Db, peers: Peers, digest: Digest, rows: seq<(Id, InRow)>,
                                                     now: int, id: Id)
    ensures AnswersPeerTurn(RecoverTables(db, peers, digest, rows, now), id) <==> AnswersPeerTurn(db, id)
    decreases |rows|
  {
    hide AnswersPeerTurn, Complete, Claim;
    if rows != [] {
      var k := |rows| - 1;
      RecoveryKeepsPublications(db, peers, digest, rows[..k], now, id);
      RecoveryKeepsPublication(RecoverTables(db, peers, digest, rows[..k], now), peers, digest, rows[k], now, id);
    }
  }

  /**
   The start-up query yields every unpublished result, so a restart reaches its retry loop
   exactly when no unpublished result answers a request sent from a peer's turn.
   */
  lemma RetryLoopStartsIff(db: Db, peers: Peers, digest: Digest, rows: seq<(Id, InRow)>, ids: seq<Id>, now: int)
    requires forall id :: id in ids <==> id in db.results && !db.results[id].published
    ensures (forall i :: 0 <= i < |ids| ==>
               !PublicationOf(RecoverTables(db, peers, digest, rows, now), ids[i]).MissingColumn?)
       <==> !exists id :: AnswersPeerTurn(db, id)
  {
    var recovered := RecoverTables(db, peers, digest, rows, now);
    forall id ensures PublicationOf(recovered, id).MissingColumn? <==> AnswersPeerTurn(db, id) {
      RecoveryKeepsPublications(db, peers, digest, rows, now, id);
    }
    if exists id :: AnswersPeerTurn(db, id) {
      var id :| AnswersPeerTurn(db, id);
      var i :| 0 <= i < |ids| && ids[i] == id;
    }
  }
}
