/** Writing a finished turn into the session, with the summary checkpoint at its boundary. */
module SaveTurn {
  import opened Wrappers
  import opened RuntimeContext
  import opened Transcript
  import opened Pairing
  import opened RepairDetails
  import opened RepairTheorems
  import opened PrepareTheorems
  import opened MergeMessages

  /** The checkpoint's transcript boundary is an index into the raw messages of the turn. */
  datatype Checkpoint = Checkpoint(summary: string, boundary: int)

  /** Redacts one content block, for instance an inline image. */
  type Redaction = Block -> Block

  const CHECKPOINT := Message(User, Text(SUMMARY_CONTINUATION_TEXT), [], "", "", None, true)
  const OMITTED := "[tool result omitted during persistence]"

  function Redacted(blocks: seq<Block>, redact: Redaction): seq<Block> {
    seq(|blocks|, i requires 0 <= i < |blocks| => redact(blocks[i]))
  }

  /**
   What is stored of one message: nothing or one entry. In a stored entry `meta` keeps only the marker that lets the
   runtime context be taken off a user's message.
   */
  function Persisted(m: Message, declared: set<string>, fulfilled: set<string>, redact: Redaction): seq<Message> {
    match m.role
    case Assistant => if !Truthy(m.content) && m.calls == [] then [] else [m.(meta := None)]
    case Tool =>
      if m.callId == "" || m.callId !in declared || m.callId in fulfilled then []
      else if !m.content.Blocks? then [m.(meta := None)]
      else if m.content.blocks == [] then [m.(meta := None, content := Blocks([TextBlock(OMITTED)]))]
      else [m.(meta := None, content := Blocks(Redacted(m.content.blocks, redact)))]
    case User =>
      var kept := if MarkerOf(m).Some? then Some(Meta(MarkerOf(m), false, map[])) else None;
      if !m.content.Blocks? then [m.(meta := kept)]
      else if m.content.blocks == [] then []
      else [m.(meta := kept, content := Blocks(Redacted(m.content.blocks, redact)))]
    case _ => [m.(meta := None)]
  }

  /** A stored entry is its message but for content and meta; the rules say which messages leave none. */
  lemma StoredEntryIsFaithful(m: Message, declared: set<string>, fulfilled: set<string>, redact: Redaction)
    ensures var entry := Persisted(m, declared, fulfilled, redact);
            && |entry| <= 1
            && (entry != [] ==> entry[0].(content := m.content, meta := m.meta) == m)
            && (entry != [] && !m.content.Blocks? ==> entry[0].content == m.content)
            && (m.role == Tool ==> (entry != [] <==> m.callId != "" && m.callId in declared && m.callId !in fulfilled))
            && (m.role == Tool && entry != [] && m.content.Blocks? ==> entry[0].content != Blocks([]))
            && (m.role == Assistant ==> (entry == [] <==> m.calls == [] && !Truthy(m.content)))
            && (m.role == User ==> (entry == [] <==> m.content == Blocks([])))
            && (m.role !in {User, Assistant, Tool} ==> entry != [])
    // Lists are stored block by block, a tool's empty one as a notice; only a user's marker is kept.
    ensures var entry := Persisted(m, declared, fulfilled, redact);
            entry != [] && m.content.Blocks? ==>
              if m.role == Tool && m.content.blocks == [] then
                entry[0].content == Blocks([TextBlock("[tool result omitted during persistence]")])
              else
                && entry[0].content.Blocks? && |entry[0].content.blocks| == |m.content.blocks|
                && forall i :: 0 <= i < |m.content.blocks| ==>
                     entry[0].content.blocks[i] ==
                     if m.role in {User, Tool} then redact(m.content.blocks[i]) else m.content.blocks[i]
    ensures var entry := Persisted(m, declared, fulfilled, redact);
            entry != [] ==>
              entry[0].meta ==
                if m.role == User && m.meta.Some? && m.meta.value.marker.Some?
                then Some(Meta(m.meta.value.marker, false, map[])) else None
  {
  }

  /**
   A turn is stored message by message. A result is stored exactly if some assistant stored before it calls for it and
   no result stored before it has its id.
   */
  lemma SurvivorsOneMore(stored: seq<Message>, turn: seq<Message>, m: Message, redact: Redaction)
    ensures Survivors(stored, [], redact) == []
    ensures var (before, after) := (Survivors(stored, turn, redact), Survivors(stored, turn + [m], redact));
            var all := stored + before;
            && before <= after && |after| <= |before| + 1
            && (after != before ==> after[|before|].(content := m.content, meta := m.meta) == m)
            && (m.role == Tool ==>
                  (after != before <==> DeclaredBefore(all, |all|, m.callId)
                                        && forall x :: x in all ==> x.role != Tool || x.callId != m.callId))
  {
    hide Declared, AnsweredIds, Persisted, DeclaredBefore;
    assert (turn + [m])[..|turn|] == turn;
    var before := Survivors(stored, turn, redact);
    var all := stored + before;
    StoredEntryIsFaithful(m, Declared(all), AnsweredIds(all), redact);
    hide Survivors;
    DeclaredIff(all, |all|, m.callId);
    assert all[..|all|] == all;
    EmptyIsNotDeclared(all, |all|);
    assert m.callId != "" ==> (m.callId in AnsweredIds(all) <==> exists x :: x in all && IsResult(x, m.callId)) by {
      AnsweredIff(all, m.callId);
    }
  }

  lemma AnsweredIff(ms: seq<Message>, id: string)
    ensures id in AnsweredIds(ms) <==> exists m :: m in ms && IsResult(m, id)
  {
  }

  /** The entries a turn adds to what is stored; each is judged against all that is stored before it. */
  function Survivors(stored: seq<Message>, turn: seq<Message>, redact: Redaction): seq<Message> {
    if turn == [] then []
    else
      var k := |turn| - 1;
      var before := Survivors(stored, turn[..k], redact);
      before + Persisted(turn[k], Declared(stored + before), AnsweredIds(stored + before), redact)
  }

  /** A boundary outside the turn is ignored. */
  function ValidatedBoundary(checkpoint: Option<Checkpoint>, skip: nat, count: nat): Option<int> {
    if checkpoint.Some? && skip - 1 <= checkpoint.value.boundary <= count
    then Some(checkpoint.value.boundary) else None
  }

  function Turn(messages: seq<Message>, skip: nat): seq<Message> {
    if skip <= |messages| then messages[skip..] else []
  }

  /** `list.insert`: an index before the start counts from the end, and is cut to the list. */
  function Inserted(s: seq<Message>, at: int, m: Message): seq<Message> {
    var from := if at < 0 then at + |s| else at;
    var i := if from < 0 then 0 else if from > |s| then |s| else from;
    s[..i] + [m] + s[i..]
  }

  // ----- what the stored session becomes ------------------------------------------------------

  lemma {:induction false} SurvivorsArePrefix(stored: seq<Message>, turn: seq<Message>, j: nat, k: nat,
                                              redact: Redaction)
    requires j <= k <= |turn|
    ensures Survivors(stored, turn[..j], redact) <= Survivors(stored, turn[..k], redact)
    decreases k
  {
    hide Persisted, Declared, AnsweredIds;
    if j < k {
      SurvivorsArePrefix(stored, turn, j, k - 1, redact);
      assert turn[..k][..k - 1] == turn[..k - 1];
    }
  }

  /** The survivors of the first `k` messages, with the checkpoint where message `j` begins. */
  function Placed(stored: seq<Message>, turn: seq<Message>, j: int, k: nat, redact: Redaction): seq<Message>
    requires k <= |turn|
  {
    var s := Survivors(stored, turn[..k], redact);
    if 0 <= j < k then
      var n := |Survivors(stored, turn[..j], redact)|;
      SurvivorsArePrefix(stored, turn, j, k, redact);
      s[..n] + [CHECKPOINT] + s[n..]
    else s
  }

  /** Where a checkpoint in front of the whole turn goes: before the trigger input if that is stored already. */
  function FrontIndex(stored: seq<Message>, early: bool): int {
    |stored| - if early then 1 else 0
  }

  function Front(stored: seq<Message>, skip: nat, boundary: Option<int>, early: bool): seq<Message> {
    if boundary == Some(skip - 1) then Inserted(stored, FrontIndex(stored, early), CHECKPOINT) else stored
  }

  function SavedTurn(stored: seq<Message>, messages: seq<Message>, skip: nat, checkpoint: Option<Checkpoint>,
                     early: bool, redact: Redaction): seq<Message> {
    var turn, boundary := Turn(messages, skip), ValidatedBoundary(checkpoint, skip, |messages|);
    Front(stored, skip, boundary, early)
    + Placed(stored, turn, if boundary.Some? then boundary.value - skip else -1, |turn|, redact)
    + if boundary == Some(|messages|) then [CHECKPOINT] else []
  }

  /** Where the checkpoint before message `j` of the turn was put. */
  function PlacedAt(stored: seq<Message>, turn: seq<Message>, j: int, early: bool, redact: Redaction): int
    requires j <= |turn|
  {
    if j < 0 then FrontIndex(stored, early) else |stored| + |Survivors(stored, turn[..j], redact)|
  }

  /** The index `last_archived` holds after saving, when a checkpoint was committed. */
  function ArchivedAt(stored: seq<Message>, messages: seq<Message>, skip: nat, boundary: int,
                      early: bool, redact: Redaction): int
    requires skip - 1 <= boundary <= |messages|
  {
    var turn := Turn(messages, skip);
    if boundary == |messages| then
      |Front(stored, skip, Some(boundary), early)| + |Survivors(stored, turn, redact)|
    else PlacedAt(stored, turn, boundary - skip, early, redact)
  }

  // ----- the methods ------------------------------------------------------------------------

  class Session {
    var messages: seq<Message>
    var lastSummary: Option<string>
    var lastArchived: int

    method CommitSummaryCheckpoint(summary: string, insertAt: Option<int>)
      modifies this
      ensures var at := if insertAt.Some? then insertAt.value else |old(messages)|;
              messages == Inserted(old(messages), at, CHECKPOINT) && lastArchived == at
      ensures insertAt.None? ==> messages == old(messages) + [CHECKPOINT]
      // From the front, or from the back where the index is negative; an index outside the list means its ends.
      ensures insertAt.Some? ==>
                var (n, at, was) := (|old(messages)|, insertAt.value, old(messages));
                && (0 <= at <= n ==> messages == was[..at] + [CHECKPOINT] + was[at..])
                && (-n <= at < 0 ==> messages == was[..n + at] + [CHECKPOINT] + was[n + at..])
                && (at > n ==> messages == was + [CHECKPOINT])
                && (at < -n ==> messages == [CHECKPOINT] + was)
      // What is inserted is the continuation prompt, as a user's message that nobody is shown.
      ensures CHECKPOINT.role == User && CHECKPOINT.hidden && CHECKPOINT.calls == [] && CHECKPOINT.meta == None
      ensures CHECKPOINT.content == Text(SUMMARY_CONTINUATION_TEXT)
      ensures lastSummary == Some(summary)
    {
      var boundary := if insertAt.None? then |messages| else insertAt.value;
      messages := Inserted(messages, boundary, CHECKPOINT);
      lastSummary := Some(summary);
      lastArchived := boundary;
    }

    /** Appends what is stored of one message and keeps the two id sets up to date. */
    method StoreMessage(m: Message, declared: set<string>, fulfilled: set<string>, redact: Redaction)
      returns (declared': set<string>, fulfilled': set<string>)
      modifies `messages
      ensures var entry := Persisted(m, declared, fulfilled, redact);
              && messages == old(messages) + entry
              && declared' == declared + (if entry == [] then {} else DeclaredBy(entry[0]))
              && fulfilled' == fulfilled + AnsweredIds(entry)
    {
      declared', fulfilled' := declared, fulfilled;
      var entry := m.(meta := None);
      if m.role == Assistant && !Truthy(m.content) && m.calls == [] {
        return;
      }
      if m.role == Tool {
        if m.callId == "" || m.callId !in declared || m.callId in fulfilled {
          return;
        }
        fulfilled' := fulfilled + {m.callId};
        if m.content.Blocks? {
          var filtered := Redacted(m.content.blocks, redact);
          if filtered == [] {
            filtered := [TextBlock(OMITTED)];
          }
          entry := entry.(content := Blocks(filtered));
        }
      } else if m.role == User {
        if m.content.Blocks? {
          var filtered := Redacted(m.content.blocks, redact);
          if filtered == [] {
            return;
          }
          entry := entry.(content := Blocks(filtered));
        }
        if MarkerOf(m).Some? {
          entry := entry.(meta := Some(Meta(MarkerOf(m), false, map[])));
        }
      }
      messages := messages + [entry];
      if m.role == Assistant {
        declared' := declared + DeclaredBy(entry);
      }
    }

    /**
     The loop over the turn: commits before the boundary's message, then stores what remains of each message. The two
     sets it keeps, by which it judges results, are in the end what a rescan of the session finds.
     */
    method StoreTurn(all: seq<Message>, skip: nat, checkpoint: Option<Checkpoint>, boundary: Option<int>,
                     redact: Redaction, ghost stored: seq<Message>)
      returns (declared: set<string>, fulfilled: set<string>)
      requires boundary.Some? ==> checkpoint.Some? && skip - 1 <= boundary.value <= |all|
      requires Declared(messages) == Declared(stored) && AnsweredIds(messages) == AnsweredIds(stored)
      requires boundary.Some? && boundary.value >= skip ==> messages == stored
      modifies this
      ensures var place := if boundary.Some? then boundary.value - skip else -1;
              var turn := Turn(all, skip);
              && messages == old(messages) + Placed(stored, turn, place, |turn|, redact)
              && (if 0 <= place < |turn| then
                    && lastSummary == Some(checkpoint.value.summary)
                    && lastArchived == |stored| + |Survivors(stored, turn[..place], redact)|
                  else lastSummary == old(lastSummary) && lastArchived == old(lastArchived))
      ensures declared == Declared(messages) && fulfilled == AnsweredIds(messages)
    {
      hide Persisted, Declared, AnsweredIds, Survivors, Placed, DeclaredBy, Inserted;
      declared, fulfilled := Declared(messages), AnsweredIds(messages);
      ghost var turn := Turn(all, skip);
      ghost var place := if boundary.Some? then boundary.value - skip else -1;
      SurvivorsOfNothing(stored, turn, place, redact);
      var i := skip;
      while i < |all|
        invariant skip <= i && i - skip <= |turn|
        invariant messages == old(messages) + Placed(stored, turn, place, i - skip, redact)
        invariant var s := stored + Survivors(stored, turn[..i - skip], redact);
                  declared == Declared(s) && fulfilled == AnsweredIds(s)
        invariant if 0 <= place < i - skip then
                    && lastSummary == Some(checkpoint.value.summary)
                    && lastArchived == |stored| + |Survivors(stored, turn[..place], redact)|
                  else lastSummary == old(lastSummary) && lastArchived == old(lastArchived)
      {
        PlacedStep(stored, turn, place, i - skip, redact);
        SetsStep(stored, turn, i - skip, redact);
        assert turn[i - skip] == all[i];
        if checkpoint.Some? && boundary == Some(i) {
          CommitSummaryCheckpoint(checkpoint.value.summary, None);
        }
        declared, fulfilled := StoreMessage(all[i], declared, fulfilled, redact);
        i := i + 1;
      }
      RescanOfPlaced(old(messages), stored, turn, place, |turn|, redact);
    }

    method SaveTurn(all: seq<Message>, skip: nat, checkpoint: Option<Checkpoint>, early: bool, redact: Redaction)
      modifies this
      ensures messages == SavedTurn(old(messages), all, skip, checkpoint, early, redact)
      ensures if checkpoint.Some? && skip - 1 <= checkpoint.value.boundary <= |all| then
                && lastSummary == Some(checkpoint.value.summary)
                && lastArchived == ArchivedAt(old(messages), all, skip, checkpoint.value.boundary, early, redact)
              else lastSummary == old(lastSummary) && lastArchived == old(lastArchived)
    {
      hide Declared, AnsweredIds, Survivors, Placed, FrontIndex, Inserted;
      ghost var stored := messages;
      var boundary := ValidatedBoundary(checkpoint, skip, |all|);
      ghost var turn := Turn(all, skip);
      if checkpoint.Some? && boundary == Some(skip - 1) {
        CommitSummaryCheckpoint(checkpoint.value.summary, Some(FrontIndex(messages, early)));
        InsertingSaysNothing(stored, FrontIndex(stored, early), CHECKPOINT);
      }
      var _, _ := StoreTurn(all, skip, checkpoint, boundary, redact, stored);
      assert turn[..|turn|] == turn;
      NotPlaced(stored, turn, if boundary.Some? then boundary.value - skip else -1, |turn|, redact);
      if checkpoint.Some? && boundary == Some(|all|) {
        CommitSummaryCheckpoint(checkpoint.value.summary, None);
      }
    }
  }

  /** A user's message neither declares nor answers anything. */
  lemma UserSaysNothing(m: Message)
    requires m.role == User
    ensures Declared([m]) == {} && AnsweredIds([m]) == {} && Skeleton([m]) == []
  {
    assert [m][..0] == [];
  }

  lemma InsertingSaysNothing(s: seq<Message>, at: int, m: Message)
    requires m.role == User
    ensures Declared(Inserted(s, at, m)) == Declared(s) && AnsweredIds(Inserted(s, at, m)) == AnsweredIds(s)
  {
    hide Declared, AnsweredIds;
    var from := if at < 0 then at + |s| else at;
    var i := if from < 0 then 0 else if from > |s| then |s| else from;
    var (a, b) := (s[..i], s[i..]);
    assert s == a + b;
    UserSaysNothing(m);
    DeclaredAppend(a, b);
    DeclaredAppend(a + [m], b);
    DeclaredAppend(a, [m]);
    AnsweredAppend(a, b);
    AnsweredAppend(a + [m], b);
    AnsweredAppend(a, [m]);
  }

  /** The placed checkpoint declares and answers nothing. */
  lemma RescanOfPlaced(before: seq<Message>, stored: seq<Message>, turn: seq<Message>, j: int, k: nat,
                       redact: Redaction)
    requires k <= |turn| && Declared(before) == Declared(stored) && AnsweredIds(before) == AnsweredIds(stored)
    ensures var (saved, kept) :=
              (before + Placed(stored, turn, j, k, redact), stored + Survivors(stored, turn[..k], redact));
            Declared(saved) == Declared(kept) && AnsweredIds(saved) == AnsweredIds(kept)
  {
    hide Declared, AnsweredIds, Survivors;
    var s, placed := Survivors(stored, turn[..k], redact), Placed(stored, turn, j, k, redact);
    if 0 <= j < k {
      var n := |Survivors(stored, turn[..j], redact)|;
      SurvivorsArePrefix(stored, turn, j, k, redact);
      assert placed == Inserted(s, n, CHECKPOINT);
      InsertingSaysNothing(s, n, CHECKPOINT);
    }
    DeclaredAppend(before, placed);
    DeclaredAppend(stored, s);
    AnsweredAppend(before, placed);
    AnsweredAppend(stored, s);
  }

  lemma SurvivorsOfNothing(stored: seq<Message>, turn: seq<Message>, j: int, redact: Redaction)
    ensures turn[..0] == [] && stored + Survivors(stored, turn[..0], redact) == stored
    ensures Placed(stored, turn, j, 0, redact) == []
  {
  }

  lemma NotPlaced(stored: seq<Message>, turn: seq<Message>, j: int, k: nat, redact: Redaction)
    requires k <= |turn|
    ensures j < 0 || j >= k ==> Placed(stored, turn, j, k, redact) == Survivors(stored, turn[..k], redact)
  {
  }

  lemma PlacedStep(stored: seq<Message>, turn: seq<Message>, j: int, k: nat, redact: Redaction)
    requires k < |turn|
    ensures var before := stored + Survivors(stored, turn[..k], redact);
            Placed(stored, turn, j, k + 1, redact) ==
              Placed(stored, turn, j, k, redact) + (if j == k then [CHECKPOINT] else [])
              + Persisted(turn[k], Declared(before), AnsweredIds(before), redact)
    ensures j >= k ==> Placed(stored, turn, j, k, redact) == Survivors(stored, turn[..k], redact)
  {
    hide Persisted, Declared, AnsweredIds;
    var s := Survivors(stored, turn[..k], redact);
    var entry := Persisted(turn[k], Declared(stored + s), AnsweredIds(stored + s), redact);
    assert turn[..k + 1][..k] == turn[..k];
    assert Survivors(stored, turn[..k + 1], redact) == s + entry;
    hide Survivors;
    if 0 <= j <= k {
      SurvivorsArePrefix(stored, turn, j, k, redact);
      var n := |Survivors(stored, turn[..j], redact)|;
      assert (s + entry)[..n] == s[..n] && (s + entry)[n..] == s[n..] + entry;
      if j == k { assert s[..n] == s && s[n..] == []; }
    }
  }

  lemma SetsStep(stored: seq<Message>, turn: seq<Message>, k: nat, redact: Redaction)
    requires k < |turn|
    ensures var before := stored + Survivors(stored, turn[..k], redact);
            var entry := Persisted(turn[k], Declared(before), AnsweredIds(before), redact);
            var after := stored + Survivors(stored, turn[..k + 1], redact);
            && |entry| <= 1
            && after == before + entry
            && Declared(after) == Declared(before) + (if entry == [] then {} else DeclaredBy(entry[0]))
            && AnsweredIds(after) == AnsweredIds(before) + AnsweredIds(entry)
  {
    var before := stored + Survivors(stored, turn[..k], redact);
    var entry := Persisted(turn[k], Declared(before), AnsweredIds(before), redact);
    AtMostOneEntry(turn[k], Declared(before), AnsweredIds(before), redact);
    hide Persisted, Declared, AnsweredIds;
    assert turn[..k + 1][..k] == turn[..k];
    DeclaredAppend(before, entry);
    AnsweredAppend(before, entry);
    if entry != [] { OneDeclares(entry[0]); assert entry == [entry[0]]; } else { NoneDeclare(); }
  }

  lemma AtMostOneEntry(m: Message, declared: set<string>, fulfilled: set<string>, redact: Redaction)
    ensures |Persisted(m, declared, fulfilled, redact)| <= 1
  {
  }

  lemma OneDeclares(m: Message)
    ensures Declared([m]) == DeclaredBy(m)
  {
    assert [m][..0] == [];
  }

  lemma NoneDeclare()
    ensures Declared([]) == {}
  {
  }

  // ----- where the checkpoint stands ------------------------------------------------------------

  /**
   For a boundary inside the turn the checkpoint is committed exactly once: behind the survivors of the messages below
   the boundary, before those at or above it, whatever was filtered. In front of the turn it also stands before the
   trigger input, if that was stored early.
   */
  lemma CheckpointStandsAtBoundary(stored: seq<Message>, messages: seq<Message>, skip: nat, checkpoint: Checkpoint,
                                   early: bool, redact: Redaction)
    requires skip <= |messages| && skip - 1 <= checkpoint.boundary <= |messages|
    ensures var turn := Turn(messages, skip);
            var all := stored + Survivors(stored, turn, redact);
            var at := if checkpoint.boundary == skip - 1
                      then |stored| - (if early && stored != [] then 1 else 0)
                      else |stored| + |Survivors(stored, turn[..checkpoint.boundary - skip], redact)|;
            && 0 <= at <= |all|
            && SavedTurn(stored, messages, skip, Some(checkpoint), early, redact) ==
                 all[..at] + [CHECKPOINT] + all[at..]
  {
    hide Survivors, CHECKPOINT, Placed, Front;
    var turn, j := Turn(messages, skip), checkpoint.boundary - skip;
    assert turn[..|turn|] == turn;
    NotPlaced(stored, turn, j, |turn|, redact);
    if j < 0 {
      FrontIsInserted(stored, Survivors(stored, turn, redact), skip, checkpoint.boundary, early);
    } else {
      NoFront(stored, skip, checkpoint.boundary, early);
      PlacedInside(stored, turn, j, redact);
    }
  }

  lemma FrontIsInserted(stored: seq<Message>, s: seq<Message>, skip: nat, boundary: int, early: bool)
    requires boundary == skip - 1
    ensures var at := |stored| - (if early && stored != [] then 1 else 0);
            Front(stored, skip, Some(boundary), early) + s == (stored + s)[..at] + [CHECKPOINT] + (stored + s)[at..]
  {
    hide CHECKPOINT;
    var at := |stored| - if early && stored != [] then 1 else 0;
    assert Front(stored, skip, Some(boundary), early) == stored[..at] + [CHECKPOINT] + stored[at..];
    assert (stored + s)[..at] == stored[..at] && (stored + s)[at..] == stored[at..] + s;
  }

  lemma NoFront(stored: seq<Message>, skip: nat, boundary: int, early: bool)
    requires boundary != skip - 1
    ensures Front(stored, skip, Some(boundary), early) == stored
  {
  }

  lemma PlacedInside(stored: seq<Message>, turn: seq<Message>, j: nat, redact: Redaction)
    requires j <= |turn|
    ensures var all := stored + Survivors(stored, turn, redact);
            var at := |stored| + |Survivors(stored, turn[..j], redact)|;
            && at <= |all|
            && stored + Placed(stored, turn, j, |turn|, redact) + (if j == |turn| then [CHECKPOINT] else []) ==
                 all[..at] + [CHECKPOINT] + all[at..]
  {
    hide CHECKPOINT, Survivors;
    var s := Survivors(stored, turn, redact);
    assert turn[..|turn|] == turn;
    SurvivorsArePrefix(stored, turn, j, |turn|, redact);
    var n := |Survivors(stored, turn[..j], redact)|;
    assert (stored + s)[..|stored| + n] == stored + s[..n] && (stored + s)[|stored| + n..] == s[n..];
    if j == |turn| { assert s[..n] == s && s[n..] == []; }
  }

  /** The archived index is the place the checkpoint was meant for, even where an empty session has no such place. */
  lemma ArchivedAtPlace(stored: seq<Message>, messages: seq<Message>, skip: nat, checkpoint: Checkpoint,
                        early: bool, redact: Redaction)
    requires skip <= |messages| && skip - 1 <= checkpoint.boundary <= |messages|
    ensures var turn := Turn(messages, skip);
            ArchivedAt(stored, messages, skip, checkpoint.boundary, early, redact) ==
              if checkpoint.boundary == skip - 1 then |stored| - (if early then 1 else 0)
              else |stored| + |Survivors(stored, turn[..checkpoint.boundary - skip], redact)|
  {
    hide Survivors;
    var turn := Turn(messages, skip);
    assert turn[..|turn|] == turn;
  }

  /** How many checkpoints are committed, for every input. */
  lemma CheckpointsCommitted(stored: seq<Message>, messages: seq<Message>, skip: nat, checkpoint: Option<Checkpoint>,
                             early: bool, redact: Redaction)
    ensures |SavedTurn(stored, messages, skip, checkpoint, early, redact)|
            - |stored| - |Survivors(stored, Turn(messages, skip), redact)| ==
              if checkpoint.None? || !(skip - 1 <= checkpoint.value.boundary <= |messages|) then 0
              else if skip == |messages| + 1 then 2 else 1
  {
    hide Persisted, Declared, AnsweredIds, Survivors;
    var turn, boundary := Turn(messages, skip), ValidatedBoundary(checkpoint, skip, |messages|);
    assert turn[..|turn|] == turn;
    NotPlaced(stored, turn, if boundary.Some? then boundary.value - skip else -1, |turn|, redact);
    if boundary.Some? && skip <= |messages| {
      CheckpointStandsAtBoundary(stored, messages, skip, checkpoint.value, early, redact);
    }
  }

  /** `last_archived` is the checkpoint's index, unless it was put before an input that an empty session cannot hold. */
  lemma ArchivedIndexIsCheckpoint(stored: seq<Message>, messages: seq<Message>, skip: nat, checkpoint: Checkpoint,
                                  early: bool, redact: Redaction)
    requires skip - 1 <= checkpoint.boundary <= |messages|
    ensures var at := ArchivedAt(stored, messages, skip, checkpoint.boundary, early, redact);
            var saved := SavedTurn(stored, messages, skip, Some(checkpoint), early, redact);
            if 0 <= at then at < |saved| && saved[at] == CHECKPOINT
            else stored == [] && early && checkpoint.boundary == skip - 1
  {
    hide Survivors, Declared, AnsweredIds;
    if skip <= |messages| {
      ArchivedIndexInTurn(stored, messages, skip, checkpoint, early, redact);
    } else {
      NotPlaced(stored, [], -1, 0, redact);
    }
  }

  lemma ArchivedIndexInTurn(stored: seq<Message>, messages: seq<Message>, skip: nat, checkpoint: Checkpoint,
                            early: bool, redact: Redaction)
    requires skip <= |messages| && skip - 1 <= checkpoint.boundary <= |messages|
    ensures var at := ArchivedAt(stored, messages, skip, checkpoint.boundary, early, redact);
            var saved := SavedTurn(stored, messages, skip, Some(checkpoint), early, redact);
            if 0 <= at then at < |saved| && saved[at] == CHECKPOINT
            else stored == [] && early && checkpoint.boundary == skip - 1
  {
    hide Survivors, SavedTurn, CHECKPOINT;
    CheckpointStandsAtBoundary(stored, messages, skip, checkpoint, early, redact);
    var turn := Turn(messages, skip);
    assert turn[..|turn|] == turn;
  }

  // ----- persistence keeps pairing --------------------------------------------------------------

  lemma FixedUnderDropIff(ms: seq<Message>)
    ensures DropOrphans(ms) == ms <==> AllDeclared({}, ms) && AnsweredAtMostOnce(ms)
  {
    hide AllDeclared, AnsweredAtMostOnce;
    if DropOrphans(ms) == ms { DroppedIsDeclared(ms); }
    if AllDeclared({}, ms) { DropsNothingIff(ms); }
  }

  /** One more entry, judged against what is stored, keeps the pairing. */
  lemma EntryKeepsPairing(stored: seq<Message>, m: Message, redact: Redaction)
    requires AllDeclared({}, stored) && AnsweredAtMostOnce(stored)
    ensures var all := stored + Persisted(m, Declared(stored), AnsweredIds(stored), redact);
            AllDeclared({}, all) && AnsweredAtMostOnce(all)
  {
    var entry := Persisted(m, Declared(stored), AnsweredIds(stored), redact);
    if entry == [] {
      assert stored + entry == stored;
    } else {
      assert entry == [entry[0]] && entry[1..] == [];
      AllDeclaredAppend({}, stored, entry);
      forall id ensures CountResults(stored + entry, id) <= 1 {
        ResultsAppend(stored, entry, id);
        CountIsAnswered(stored, id);
      }
    }
  }

  lemma {:induction false} SurvivorsKeepPairing(stored: seq<Message>, turn: seq<Message>, redact: Redaction)
    requires AllDeclared({}, stored) && AnsweredAtMostOnce(stored)
    ensures var all := stored + Survivors(stored, turn, redact); AllDeclared({}, all) && AnsweredAtMostOnce(all)
  {
    hide AllDeclared, AnsweredAtMostOnce, Persisted, Declared, AnsweredIds;
    if turn == [] {
      assert stored + Survivors(stored, turn, redact) == stored;
    } else {
      var k := |turn| - 1;
      var before := stored + Survivors(stored, turn[..k], redact);
      SurvivorsKeepPairing(stored, turn[..k], redact);
      EntryKeepsPairing(before, turn[k], redact);
      assert stored + Survivors(stored, turn, redact) ==
             before + Persisted(turn[k], Declared(before), AnsweredIds(before), redact);
    }
  }

  lemma {:induction false} SkeletonAppend(a: seq<Message>, b: seq<Message>)
    ensures Skeleton(a + b) == Skeleton(a) + Skeleton(b)
  {
    hide Bare;
    if b == [] { assert a + b == a; } else {
      var k := |b| - 1;
      assert (a + b)[..|a + b| - 1] == a + b[..k];
      SkeletonAppend(a, b[..k]);
    }
  }

  lemma UserLeavesSkeleton(a: seq<Message>, m: Message, b: seq<Message>)
    requires m.role == User
    ensures Skeleton(a + [m] + b) == Skeleton(a) + Skeleton(b)
  {
    hide Skeleton;
    SkeletonAppend(a + [m], b);
    SkeletonAppend(a, [m]);
    UserSaysNothing(m);
  }

  /** Up to user messages, a saved session is what was stored followed by the survivors. */
  lemma SavedSkeleton(stored: seq<Message>, messages: seq<Message>, skip: nat, checkpoint: Option<Checkpoint>,
                      early: bool, redact: Redaction)
    ensures Skeleton(SavedTurn(stored, messages, skip, checkpoint, early, redact)) ==
            Skeleton(stored + Survivors(stored, Turn(messages, skip), redact))
  {
    hide Persisted, Declared, AnsweredIds, Survivors, Skeleton;
    var turn, boundary := Turn(messages, skip), ValidatedBoundary(checkpoint, skip, |messages|);
    var s := Survivors(stored, turn, redact);
    assert turn[..|turn|] == turn;
    NotPlaced(stored, turn, if boundary.Some? then boundary.value - skip else -1, |turn|, redact);
    if boundary.None? {
      assert SavedTurn(stored, messages, skip, checkpoint, early, redact) == stored + s;
    } else if skip <= |messages| {
      var all := stored + s;
      CheckpointStandsAtBoundary(stored, messages, skip, checkpoint.value, early, redact);
      var at :| 0 <= at <= |all| && SavedTurn(stored, messages, skip, checkpoint, early, redact) ==
                                    all[..at] + [CHECKPOINT] + all[at..];
      UserLeavesSkeleton(all[..at], CHECKPOINT, all[at..]);
      SkeletonAppend(all[..at], all[at..]);
      assert all[..at] + all[at..] == all;
    } else {
      var at := |stored| - if early && stored != [] then 1 else 0;
      var front := stored[..at] + [CHECKPOINT] + stored[at..];
      assert s == [] by { SurvivorsOfNothing(stored, turn, 0, redact); }
      assert SavedTurn(stored, messages, skip, checkpoint, early, redact) == front + [CHECKPOINT] + [];
      UserLeavesSkeleton(front, CHECKPOINT, []);
      UserLeavesSkeleton(stored[..at], CHECKPOINT, stored[at..]);
      SkeletonAppend(stored[..at], stored[at..]);
      assert stored[..at] + stored[at..] == stored && stored + s == stored;
      SkeletonAppend(front, []);
      assert front + [] == front;
    }
  }

  /** If nothing stored was an orphan, nothing is after saving any turn. */
  lemma SavingKeepsPairing(stored: seq<Message>, messages: seq<Message>, skip: nat, checkpoint: Option<Checkpoint>,
                           early: bool, redact: Redaction)
    requires DropOrphans(stored) == stored
    ensures var saved := SavedTurn(stored, messages, skip, checkpoint, early, redact); DropOrphans(saved) == saved
  {
    hide AllDeclared, DropOrphans, Survivors, SavedTurn, Skeleton;
    var saved := SavedTurn(stored, messages, skip, checkpoint, early, redact);
    var plain := stored + Survivors(stored, Turn(messages, skip), redact);
    FixedUnderDropIff(stored);
    SurvivorsKeepPairing(stored, Turn(messages, skip), redact);
    SavedSkeleton(stored, messages, skip, checkpoint, early, redact);
    SkeletonDecides(plain, saved);
    SkeletonSaysTheSame(plain, "");
    SkeletonSaysTheSame(saved, "");
    FixedUnderDropIff(saved);
  }

  /** The id sets kept while saving are those a rescan of the saved session would find. */
  lemma RescanAgrees(stored: seq<Message>, messages: seq<Message>, skip: nat, checkpoint: Option<Checkpoint>,
                     early: bool, redact: Redaction)
    ensures var saved := SavedTurn(stored, messages, skip, checkpoint, early, redact);
            var kept := stored + Survivors(stored, Turn(messages, skip), redact);
            Declared(saved) == Declared(kept) && AnsweredIds(saved) == AnsweredIds(kept)
  {
    hide Declared, AnsweredIds, Survivors, SavedTurn, Skeleton;
    SavedSkeleton(stored, messages, skip, checkpoint, early, redact);
    SkeletonSaysTheSame(SavedTurn(stored, messages, skip, checkpoint, early, redact), "");
    SkeletonSaysTheSame(stored + Survivors(stored, Turn(messages, skip), redact), "");
  }

  // ----- the user's view of what is stored -------------------------------------------------------

  /** Text blocks are never redacted. */
  ghost predicate KeepsText(redact: Redaction) {
    forall text :: redact(TextBlock(text)) == TextBlock(text)
  }

  /** What the public view shows of a stored user message is the visible part of the message, redacted. */
  lemma StoredContextComesOff(m: Message, declared: set<string>, fulfilled: set<string>, redact: Redaction)
    requires m.role == User && KeepsText(redact) && View(m).Some? && AllText(View(m).value.context)
    requires Persisted(m, declared, fulfilled, redact) != []
    ensures var entry := Persisted(m, declared, fulfilled, redact)[0];
            var visible := View(m).value.visible;
            PublicContent(entry.content, MarkerOf(entry)) ==
              if visible.Blocks? then Blocks(Redacted(visible.blocks, redact)) else visible
  {
    if m.content.Blocks? && MarkerOf(m).Some? {
      var d := View(m).value;
      DetachShape(m.content, MarkerOf(m).value);
      RedactedAppend(d.visible.blocks, d.context, redact);
      var entry := Persisted(m, declared, fulfilled, redact)[0];
      assert entry.content.blocks == Redacted(d.visible.blocks, redact) + d.context;
      assert MarkerOf(entry) == MarkerOf(m);
      var n := |d.visible.blocks|;
      assert entry.content.blocks[n..] == d.context && entry.content.blocks[..n] == Redacted(d.visible.blocks, redact);
    } else if MarkerOf(m).Some? {
      PublicShowsTheDetached(m.content, MarkerOf(m).value);
    }
  }

  lemma RedactedAppend(a: seq<Block>, context: seq<Block>, redact: Redaction)
    requires KeepsText(redact) && AllText(context)
    ensures Redacted(a + context, redact) == Redacted(a, redact) + context
  {
    forall i | 0 <= i < |context| ensures redact(context[i]) == context[i] {
      assert context[i] == TextBlock(context[i].text);
    }
  }
}
