/**
 The values of the paired-peer delivery protocol: table rows, envelopes and
 the checks an incoming envelope passes before any table is touched.
 */
module PeerTypes {
  import opened Wrappers
  import opened Strings

  type Id = string
  type PeerId = string
  type Secret = string

  const MAX_CONTENT := 12_000
  const MAX_REPLY_HOPS := 3
  const MAX_ATTEMPTS := 8
  const MAX_ID := 128

  /** A decoded JSON value; `Other` stands for numbers with a fraction, lists and objects. */
  datatype Json = Null | Bool(b: bool) | Num(n: int) | Str(s: string) | Other

  type Envelope = map<string, Json>

  /** The keyed hash over the canonical form of an envelope. */
  type Mac = (Secret, Envelope) -> string

  /** The hexadecimal digest of a request's id; nothing is assumed of it, so two ids may share one. */
  type Digest = Id -> string

  type Peers = map<PeerId, Secret>

  datatype Kind = Work | Reply
  datatype OutState = Pending | Acked | Failed | Finished
  datatype InState = Received | Queued | Started | Completed

  /** The columns of an outbox row that no statement ever updates. */
  datatype Letter = Letter(
    peer: PeerId, content: string, replyTo: Option<Id>, hops: int, kind: Kind, created: int,
    returnChannel: Option<string>, returnChat: Option<string>, returnSession: Option<string>)

  datatype OutRow = OutRow(
    letter: Letter, state: OutState, attempts: int, nextAttempt: int,
    lastError: Option<string>, result: Option<string>)

  /** The columns of an inbox row that no statement ever updates. */
  datatype Job = Job(
    sender: PeerId, content: string, replyTo: Option<Id>, hops: int, kind: Kind, received: int)

  datatype InRow = InRow(job: Job, state: InState, delivered: bool)

  datatype Answer = Answer(request: Id, sender: PeerId, content: string, received: int)

  datatype ResRow = ResRow(answer: Answer, published: bool)

  /** The three durable tables of one instance. */
  datatype Db = Db(outbox: map<Id, OutRow>, inbox: map<Id, InRow>, results: map<Id, ResRow>)

  datatype PeerError =
    | NotPaired
    | BadContent
    | HopLimit
    | IdInUse
    | AuthenticationFailed
    | WrongRecipient
    | InvalidRequest
    | BadReplyReference
    | NoCorrelatedRequest

  /** An admitted envelope. */
  datatype Request =
    | WorkRequest(id: Id, sender: PeerId, content: string, replyTo: Option<Id>, hops: int)
    | ResultRequest(id: Id, sender: PeerId, request: Id, content: string)

  // ----- envelopes ----------------------------------------------------------

  function Field(data: Envelope, key: string): Json {
    if key in data then data[key] else Null
  }

  function OptionalId(reply: Option<Id>): Json {
    match reply
    case None => Null
    case Some(id) => Str(id)
  }

  function KindName(kind: Kind): string {
    if kind == Work then "work" else "result"
  }

  /** The envelope `_deliver` builds from an outbox row. */
  function EnvelopeOf(self: PeerId, id: Id, letter: Letter): Envelope {
    map[
      "id" := Str(id), "sender" := Str(self), "recipient" := Str(letter.peer),
      "content" := Str(letter.content), "reply_to" := OptionalId(letter.replyTo),
      "hops" := Num(letter.hops), "kind" := Str(KindName(letter.kind))]
  }

  predicate Authentic(peers: Peers, mac: Mac, data: Envelope, signature: Json) {
    && Field(data, "sender").Str?
    && Field(data, "sender").s in peers
    && signature == Str(mac(peers[Field(data, "sender").s], data))
  }

  function KindField(data: Envelope): Json {
    if "kind" in data then data["kind"] else Str("work")
  }

  predicate WellFormed(data: Envelope) {
    && Field(data, "id").Str? && |Field(data, "id").s| <= MAX_ID
    && Field(data, "content").Str?
    && Strip(Field(data, "content").s) != "" && |Field(data, "content").s| <= MAX_CONTENT
    && Field(data, "hops").Num? && 1 <= Field(data, "hops").n <= MAX_REPLY_HOPS
    && (KindField(data) == Str("work") || KindField(data) == Str("result"))
  }

  /** The checks of `_handle_envelope`, in their order. `None` is a value that is not an object. */
  function Admit(self: PeerId, peers: Peers, mac: Mac, envelope: Option<Envelope>, signature: Json)
    : Result<Request, PeerError>
  {
    if envelope.None? then Failure(InvalidRequest)
    else
      var data := envelope.value;
      if !Authentic(peers, mac, data, signature) then Failure(AuthenticationFailed)
      else if Field(data, "recipient") != Str(self) then Failure(WrongRecipient)
      else if !WellFormed(data) then Failure(InvalidRequest)
      else
        var id, sender := Field(data, "id").s, Field(data, "sender").s;
        var content, reply := Field(data, "content").s, Field(data, "reply_to");
        if !(reply.Null? || (reply.Str? && |reply.s| <= MAX_ID)) then Failure(BadReplyReference)
        else if KindField(data) == Str("result") then
          if reply.Str? then Success(ResultRequest(id, sender, reply.s, content))
          else Failure(NoCorrelatedRequest)
        else
          Success(WorkRequest(id, sender, content,
                              if reply.Str? then Some(reply.s) else None, Field(data, "hops").n))
  }

  // ----- identifiers --------------------------------------------------------

  predicate IsHexDigit(c: char) {
    '0' <= c <= '9' || 'a' <= c <= 'f'
  }

  /** The shape of `uuid4().hex`. */
  predicate IsUuid(id: Id) {
    |id| == 32 && forall i :: 0 <= i < |id| ==> IsHexDigit(id[i])
  }

  const DIGEST_CHARS := 32

  /** A result's id carries the first 32 characters of the request's digest. */
  function ResultId(digest: Digest, request: Id): Id {
    "r-" + Truncate(digest(request), DIGEST_CHARS)
  }

  /** Generated work ids and derived result ids never meet, so they can share one table. */
  lemma WorkAndResultIdsAreDisjoint(digest: Digest, request: Id)
    ensures !IsUuid(ResultId(digest, request))
  {
    assert ResultId(digest, request)[0] == 'r';
  }

  /** Two requests share a result id exactly when the shortened digests meet, and every result id fits an envelope. */
  lemma ResultIdsMeetIff(digest: Digest, a: Id, b: Id)
    ensures ResultId(digest, a) == ResultId(digest, b) <==>
              Truncate(digest(a), DIGEST_CHARS) == Truncate(digest(b), DIGEST_CHARS)
    ensures |ResultId(digest, a)| <= MAX_ID
  {
    assert Truncate(digest(a), DIGEST_CHARS) == ResultId(digest, a)[2..];
    assert Truncate(digest(b), DIGEST_CHARS) == ResultId(digest, b)[2..];
  }

  // ----- what an honest sender's envelope looks like to its receiver ---------

  /** A letter an instance may transmit: what `enqueue` and `complete_inbox` write. */
  predicate Sendable(id: Id, letter: Letter) {
    && |id| <= MAX_ID
    && Strip(letter.content) != "" && |letter.content| <= MAX_CONTENT
    && 1 <= letter.hops <= MAX_REPLY_HOPS
    && (letter.replyTo.Some? ==> |letter.replyTo.value| <= MAX_ID)
    && (letter.kind == Reply ==> letter.replyTo.Some?)
  }

  function RequestOf(self: PeerId, id: Id, letter: Letter): Request
    requires letter.kind == Reply ==> letter.replyTo.Some?
  {
    if letter.kind == Reply then ResultRequest(id, self, letter.replyTo.value, letter.content)
    else WorkRequest(id, self, letter.content, letter.replyTo, letter.hops)
  }

  lemma EnvelopeFields(self: PeerId, id: Id, letter: Letter)
    ensures var data := EnvelopeOf(self, id, letter);
            && Field(data, "id") == Str(id) && Field(data, "sender") == Str(self)
            && Field(data, "recipient") == Str(letter.peer) && Field(data, "content") == Str(letter.content)
            && Field(data, "reply_to") == OptionalId(letter.replyTo) && Field(data, "hops") == Num(letter.hops)
            && KindField(data) == Str(KindName(letter.kind))
  {
  }

  /** A letter's envelope is admitted exactly by the peer it names and if authentic, and as that letter's request. */
  lemma AdmittedAsSent(receiver: PeerId, self: PeerId, id: Id, letter: Letter, peers: Peers, mac: Mac, signature: Json)
    requires Sendable(id, letter)
    ensures var data := EnvelopeOf(self, id, letter);
            var outcome := Admit(receiver, peers, mac, Some(data), signature);
            && (outcome.Success? <==> Authentic(peers, mac, data, signature) && receiver == letter.peer)
            && (outcome.Success? ==> outcome.value == RequestOf(self, id, letter))
  {
    EnvelopeFields(self, id, letter);
  }

  /**
   The receiver reads back exactly the letter the sender signed: an envelope an instance
   sends to a peer that holds the same secret for it is never refused.
   */
  lemma ReceiverReadsTheSentLetter(self: PeerId, id: Id, letter: Letter, secret: Secret, peers: Peers, mac: Mac)
    requires Sendable(id, letter) && self in peers && peers[self] == secret
    ensures var data := EnvelopeOf(self, id, letter);
            Admit(letter.peer, peers, mac, Some(data), Str(mac(secret, data)))
              == Success(RequestOf(self, id, letter))
  {
    EnvelopeFields(self, id, letter);
  }

  // ----- exactly which envelopes are admitted -----------------------------------

  predicate Says(data: Envelope, key: string, text: string) {
    key in data && data[key] == Str(text)
  }

  /** The fields both kinds of envelopes need: names, an id and a text within bounds, one to three hops. */
  predicate Legible(self: PeerId, data: Envelope, r: Request) {
    && Says(data, "sender", r.sender) && Says(data, "recipient", self)
    && Says(data, "id", r.id) && |r.id| <= 128
    && Says(data, "content", r.content) && |r.content| <= 12_000 && Strip(r.content) != ""
    && "hops" in data && data["hops"].Num? && 1 <= data["hops"].n <= 3
  }

  /** Work by default, with an optional reference; a result has to name its request. */
  predicate SaysItsKind(data: Envelope, r: Request) {
    match r
    case WorkRequest(_, _, _, replyTo, hops) =>
      && ("kind" in data ==> data["kind"] == Str("work"))
      && (if replyTo.Some? then Says(data, "reply_to", replyTo.value) && |replyTo.value| <= 128
          else "reply_to" in data ==> data["reply_to"] == Null)
      && "hops" in data && data["hops"] == Num(hops)
    case ResultRequest(_, _, request, _) =>
      Says(data, "kind", "result") && Says(data, "reply_to", request) && |request| <= 128
  }

  /** An envelope is admitted exactly if a paired sender signed it, and it is legible and addressed here. */
  lemma AdmittedIff(self: PeerId, peers: Peers, mac: Mac, data: Envelope, signature: Json, r: Request)
    ensures Admit(self, peers, mac, Some(data), signature) == Success(r) <==>
              && r.sender in peers && signature == Str(mac(peers[r.sender], data))
              && Legible(self, data, r) && SaysItsKind(data, r)
  {
  }
}
