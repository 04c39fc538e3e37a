/** Preparing a transcript for the model, and preparing what is already prepared. */
module PrepareTheorems {
  import opened Wrappers
  import opened RuntimeContext
  import opened Transcript
  import opened Pairing
  import opened RepairTheorems
  import opened MergeMessages

  /** `prepare_messages_for_model`. */
  function Prepare(ms: seq<Message>, normalize: Normalizer, fallback: nat -> string): seq<Message> {
    Merged(Budgeted(Repair(ms), normalize, fallback))
  }

  // ----- neither the budget pass nor the merge touches the call structure ------------------

  /** The messages without the user's, and without the contents of tool results. */
  function Skeleton(ms: seq<Message>): seq<Message> {
    if ms == [] then [] else Skeleton(ms[..|ms| - 1]) + Bare(ms[|ms| - 1])
  }

  function Bare(m: Message): seq<Message> {
    if m.role == User then [] else if m.role == Tool then [m.(content := Absent)] else [m]
  }

  lemma BudgetKeepsBare(m: Message, i: nat, normalize: Normalizer, fallback: nat -> string)
    ensures Bare(BudgetedMessage(m, i, normalize, fallback)) == Bare(m)
  {
  }

  lemma BudgetUnfolds(ms: seq<Message>, normalize: Normalizer, fallback: nat -> string)
    requires ms != []
    ensures var k := |ms| - 1;
            Budgeted(ms, normalize, fallback) ==
            Budgeted(ms[..k], normalize, fallback) + [BudgetedMessage(ms[k], k, normalize, fallback)]
  {
    hide BudgetedMessage;
  }

  lemma {:induction false} BudgetIsPointwise(ms: seq<Message>, normalize: Normalizer, fallback: nat -> string)
    ensures |Budgeted(ms, normalize, fallback)| == |ms|
    ensures forall i :: 0 <= i < |ms| ==>
              Budgeted(ms, normalize, fallback)[i] == BudgetedMessage(ms[i], i, normalize, fallback)
  {
    if ms != [] {
      hide Budgeted, BudgetedMessage;
      BudgetIsPointwise(ms[..|ms| - 1], normalize, fallback);
      BudgetUnfolds(ms, normalize, fallback);
    }
  }

  lemma {:induction false} BudgetKeepsSkeleton(ms: seq<Message>, normalize: Normalizer, fallback: nat -> string)
    ensures Skeleton(Budgeted(ms, normalize, fallback)) == Skeleton(ms)
  {
    if ms != [] {
      hide Budgeted, BudgetedMessage, Bare, Skeleton;
      var k := |ms| - 1;
      BudgetKeepsSkeleton(ms[..k], normalize, fallback);
      BudgetKeepsBare(ms[k], k, normalize, fallback);
      BudgetUnfolds(ms, normalize, fallback);
      SkeletonGrows(Budgeted(ms[..k], normalize, fallback), BudgetedMessage(ms[k], k, normalize, fallback));
      SkeletonUnfolds(ms);
    }
  }

  lemma SkeletonUnfolds(ms: seq<Message>)
    requires ms != []
    ensures Skeleton(ms) == Skeleton(ms[..|ms| - 1]) + Bare(ms[|ms| - 1])
  {
    hide Bare;
  }

  lemma SkeletonGrows(ms: seq<Message>, m: Message)
    ensures Skeleton(ms + [m]) == Skeleton(ms) + Bare(m)
  {
    hide Bare;
    assert (ms + [m])[..|ms|] == ms;
  }

  lemma {:induction false} MergeKeepsSkeleton(ms: seq<Message>)
    ensures Skeleton(Merged(ms)) == Skeleton(ms)
  {
    if ms != [] {
      var k := |ms| - 1;
      MergeKeepsSkeleton(ms[..k]);
      AttachKeepsSkeleton(Merged(ms[..k]), ms[k]);
    }
  }

  lemma AttachKeepsSkeleton(prepared: seq<Message>, m: Message)
    ensures Skeleton(Attach(prepared, m)) == Skeleton(prepared) + Bare(m)
  {
    var n, r := |prepared|, Attach(prepared, m);
    if n > 0 && Mergeable(prepared[n - 1]) && Mergeable(m) {
      MergeKeepsRole(prepared[n - 1], m);
      hide Mergeable, MergeTwo;
      assert r[..n - 1] == prepared[..n - 1];
    } else {
      assert r[..n] == prepared;
    }
  }

  lemma MergeKeepsRole(left: Message, right: Message)
    ensures MergeTwo(left, right).role == left.role
  {
  }

  // ----- what a skeleton still says ------------------------------------------------------------

  lemma BareSaysTheSame(m: Message, seen: set<string>, id: string)
    ensures Declared(Bare(m)) == Declared([m]) && AnsweredIds(Bare(m)) == AnsweredIds([m])
    ensures CountResults(Bare(m), id) == CountResults([m], id)
    ensures AllDeclared(seen, Bare(m)) == AllDeclared(seen, [m])
  {
    assert [m][..0] == [] && [m][1..] == [];
    assert forall x: Message :: [x][..0] == [] && [x][1..] == [];
  }

  /** Declarations and results can be read off the skeleton. */
  lemma {:induction false} SkeletonSaysTheSame(ms: seq<Message>, id: string)
    ensures Declared(Skeleton(ms)) == Declared(ms) && AnsweredIds(Skeleton(ms)) == AnsweredIds(ms)
    ensures CountResults(Skeleton(ms), id) == CountResults(ms, id)
    ensures AllDeclared({}, Skeleton(ms)) == AllDeclared({}, ms)
  {
    if ms != [] {
      hide Bare, Declared, AnsweredIds, CountResults, AllDeclared;
      var k := |ms| - 1;
      var (a, m) := (ms[..k], ms[k]);
      SkeletonSaysTheSame(a, id);
      BareSaysTheSame(m, {} + Declared(a), id);
      assert ms == a + [m];
      DeclaredAppend(a, [m]);
      DeclaredAppend(Skeleton(a), Bare(m));
      AnsweredAppend(a, [m]);
      AnsweredAppend(Skeleton(a), Bare(m));
      ResultsAppend(a, [m], id);
      ResultsAppend(Skeleton(a), Bare(m), id);
      AllDeclaredAppend({}, a, [m]);
      AllDeclaredAppend({}, Skeleton(a), Bare(m));
    }
  }

  lemma {:induction false} SkeletonReopensTheSame(ms: seq<Message>)
    ensures NoneReopened({}, Skeleton(ms)) == NoneReopened({}, ms)
  {
    hide Bare, Declared, DeclaredBy, AnsweredIds, NoneReopened, CountResults, AllDeclared;
    if ms != [] {
      hide Skeleton;
      var k := |ms| - 1;
      var (a, m) := (ms[..k], ms[k]);
      SkeletonReopensTheSame(a);
      SkeletonSaysTheSame(a, "");
      SkeletonUnfolds(ms);
      assert ms == a + [m];
      ReopenedGrows(a, m);
      BareReopens(Skeleton(a), m);
    }
  }

  lemma BareReopens(ms: seq<Message>, m: Message)
    ensures NoneReopened({}, ms + Bare(m)) <==> NoneReopened({}, ms) && DeclaredBy(m) !! AnsweredIds(ms)
  {
    hide NoneReopened, AnsweredIds;
    if m.role == User {
      assert ms + [] == ms;
    } else {
      var bare := if m.role == Tool then m.(content := Absent) else m;
      assert Bare(m) == [bare];
      ReopenedGrows(ms, bare);
    }
  }

  lemma ReopenedGrows(ms: seq<Message>, m: Message)
    ensures NoneReopened({}, ms + [m]) <==> NoneReopened({}, ms) && DeclaredBy(m) !! AnsweredIds(ms)
  {
    hide AnsweredIds, DeclaredBy;
    NoneReopenedAppend({}, ms, [m]);
    assert {} + AnsweredIds(ms) == AnsweredIds(ms) && [m][1..] == [];
  }

  lemma {:induction false} SkeletonKeepsAssistants(ms: seq<Message>, m: Message)
    requires m.role == Assistant
    ensures m in Skeleton(ms) <==> m in ms
  {
    if ms != [] {
      SkeletonKeepsAssistants(ms[..|ms| - 1], m);
      assert ms == ms[..|ms| - 1] + [ms[|ms| - 1]];
    }
  }

  /** Two lists with one skeleton look alike to repair. */
  lemma SkeletonDecides(a: seq<Message>, b: seq<Message>)
    requires Skeleton(a) == Skeleton(b)
    ensures Settled(a) ==> Settled(b)
    ensures NoStrays(a) ==> NoStrays(b)
    ensures AnsweredAtMostOnce(a) ==> AnsweredAtMostOnce(b)
  {
    hide CountResults, Declared, AnsweredIds, AllDeclared, PlaceholderText;
    forall id ensures CountResults(a, id) == CountResults(b, id) {
      SkeletonSaysTheSame(a, id);
      SkeletonSaysTheSame(b, id);
    }
    SkeletonSaysTheSame(a, "");
    SkeletonSaysTheSame(b, "");
    forall m: Message | m.role == Assistant ensures m in a <==> m in b {
      SkeletonKeepsAssistants(a, m);
      SkeletonKeepsAssistants(b, m);
    }
  }

  // ----- preparing twice --------------------------------------------------------------------

  /** A result that the budget pass leaves as it is. */
  predicate IsNormal(m: Message, normalize: Normalizer) {
    normalize(m.callId, if m.name != "" then m.name else "tool", m.content) == m.content
  }

  /** A result that a second normalization leaves as the first one made it. */
  predicate SettlesAtOnce(m: Message, normalize: Normalizer) {
    IsNormal(m.(content := normalize(m.callId, if m.name != "" then m.name else "tool", m.content)), normalize)
  }

  ghost predicate AllSettleAtOnce(ms: seq<Message>, normalize: Normalizer) {
    forall m :: m in ms && m.role == Tool ==> SettlesAtOnce(m, normalize)
  }

  lemma {:induction false} MergeKeepsTools(ms: seq<Message>, m: Message)
    requires m.role == Tool
    ensures m in Merged(ms) <==> m in ms
  {
    if ms != [] {
      hide Mergeable, MergeTwo, Merged, Attach;
      var k := |ms| - 1;
      MergeKeepsTools(ms[..k], m);
      assert ms == ms[..k] + [ms[k]];
      MergedUnfolds(ms);
      AttachKeepsTools(Merged(ms[..k]), ms[k], m);
    }
  }

  lemma MergedUnfolds(ms: seq<Message>)
    requires ms != []
    ensures Merged(ms) == Attach(Merged(ms[..|ms| - 1]), ms[|ms| - 1])
  {
    hide Attach;
  }

  lemma AttachKeepsTools(prepared: seq<Message>, last: Message, m: Message)
    requires m.role == Tool
    ensures m in Attach(prepared, last) <==> m in prepared || m == last
  {
    var n := |prepared|;
    if n > 0 && Mergeable(prepared[n - 1]) && Mergeable(last) {
      MergeKeepsRole(prepared[n - 1], last);
      hide MergeTwo;
      var after := Attach(prepared, last);
      if m in prepared {
        var i :| 0 <= i < n && prepared[i] == m;
        assert after[i] == m;
      }
    }
  }

  lemma BudgetOfOne(m: Message, i: nat, normalize: Normalizer, fallback: nat -> string)
    requires m.role == Tool ==> m.callId != ""
    ensures var b := BudgetedMessage(m, i, normalize, fallback);
            && b.role == m.role
            && (b == m <==> (m.role == Tool ==> IsNormal(m, normalize)))
            && (m.role == Tool ==> (IsNormal(b, normalize) <==> SettlesAtOnce(m, normalize)))
  {
  }

  /** A second budget pass changes nothing exactly if no result needs a second normalization. */
  lemma PreparedIsNormalIff(ms: seq<Message>, normalize: Normalizer, fallback: nat -> string)
    ensures var x := Prepare(ms, normalize, fallback);
            Budgeted(x, normalize, fallback) == x <==> AllSettleAtOnce(Repair(ms), normalize)
  {
    hide Budgeted, BudgetedMessage, Repair, Merged, IsNormal, SettlesAtOnce;
    var r, x := Repair(ms), Prepare(ms, normalize, fallback);
    var b := Budgeted(r, normalize, fallback);
    RepairedResultsHaveIds(ms);
    PreparedResultsHaveIds(ms, normalize, fallback);
    BudgetIsPointwise(r, normalize, fallback);
    BudgetIsPointwise(x, normalize, fallback);
    forall i | 0 <= i < |r|
      ensures r[i].role == Tool ==> b[i].role == Tool && (IsNormal(b[i], normalize) <==> SettlesAtOnce(r[i], normalize))
      ensures r[i].role != Tool ==> b[i].role != Tool
    {
      assert r[i] in r;
      BudgetOfOne(r[i], i, normalize, fallback);
    }
    forall i | 0 <= i < |x|
      ensures Budgeted(x, normalize, fallback)[i] == x[i] <==> (x[i].role == Tool ==> IsNormal(x[i], normalize))
    {
      assert x[i] in x;
      BudgetOfOne(x[i], i, normalize, fallback);
    }
    forall m: Message | m.role == Tool ensures m in x <==> m in b { MergeKeepsTools(b, m); }
    NormalByPosition(r, b, x, normalize);
  }

  lemma NormalByPosition(r: seq<Message>, b: seq<Message>, x: seq<Message>, normalize: Normalizer)
    requires |b| == |r| && forall m: Message :: m.role == Tool ==> (m in x <==> m in b)
    requires forall i :: 0 <= i < |r| ==> (r[i].role == Tool <==> b[i].role == Tool)
    requires forall i :: 0 <= i < |r| && r[i].role == Tool ==>
               (IsNormal(b[i], normalize) <==> SettlesAtOnce(r[i], normalize))
    ensures (forall i :: 0 <= i < |x| && x[i].role == Tool ==> IsNormal(x[i], normalize))
            <==> AllSettleAtOnce(r, normalize)
  {
    hide IsNormal, SettlesAtOnce;
    if forall i :: 0 <= i < |x| && x[i].role == Tool ==> IsNormal(x[i], normalize) {
      forall m | m in r && m.role == Tool ensures SettlesAtOnce(m, normalize) {
        var i :| 0 <= i < |r| && r[i] == m;
        assert b[i] in b && b[i] in x;
      }
    }
    if AllSettleAtOnce(r, normalize) {
      forall i | 0 <= i < |x| && x[i].role == Tool ensures IsNormal(x[i], normalize) {
        assert x[i] in x && x[i] in b;
        var j :| 0 <= j < |b| && b[j] == x[i];
        assert r[j] in r;
      }
    }
  }

  lemma RepairedResultsHaveIds(ms: seq<Message>)
    ensures forall m :: m in Repair(ms) && m.role == Tool ==> m.callId != ""
  {
    hide Repair;
    RepairedIsSettled(ms);
    DeclaredResultsHaveIds({}, Repair(ms));
  }

  lemma PreparedResultsHaveIds(ms: seq<Message>, normalize: Normalizer, fallback: nat -> string)
    ensures forall m :: m in Prepare(ms, normalize, fallback) && m.role == Tool ==> m.callId != ""
  {
    hide Repair, Budgeted, Merged, Skeleton, Settled;
    var r, x := Repair(ms), Prepare(ms, normalize, fallback);
    BudgetKeepsSkeleton(r, normalize, fallback);
    MergeKeepsSkeleton(Budgeted(r, normalize, fallback));
    RepairedIsSettled(ms);
    SkeletonDecides(r, x);
    SettledResultsHaveIds(x);
  }

  lemma SettledResultsHaveIds(ms: seq<Message>)
    requires Settled(ms)
    ensures forall m :: m in ms && m.role == Tool ==> m.callId != ""
  {
    DeclaredResultsHaveIds({}, ms);
  }

  /** The budget pass keeps user messages, so it opens no new place to merge. */
  lemma BudgetedStaysMerged(ms: seq<Message>, normalize: Normalizer, fallback: nat -> string)
    requires NoNeighbours(ms)
    ensures Merged(Budgeted(ms, normalize, fallback)) == Budgeted(ms, normalize, fallback)
  {
    var b := Budgeted(ms, normalize, fallback);
    BudgetIsPointwise(ms, normalize, fallback);
    hide Budgeted, Merged;
    assert forall i :: 0 <= i < |ms| ==> (Mergeable(b[i]) <==> Mergeable(ms[i]));
    NothingToMerge(b);
  }

  /**
   Preparing a prepared list again, for every input: if the input has no hollow assistant and no call that lost its
   result shares its id, nothing changes exactly if no result needs a second normalization; elsewhere a message is lost.
   */
  lemma PrepareIsFixedIff(ms: seq<Message>, normalize: Normalizer, fallback: nat -> string)
    ensures var x := Prepare(ms, normalize, fallback);
            var again := Prepare(x, normalize, fallback);
            if NoneHollow(ms) && LostCallsAreDistinct(Stripped(ms))
            then again == x <==> AllSettleAtOnce(Repair(ms), normalize) else |again| < |x|
  {
    hide Repair, Budgeted, NoneHollow, LostCallsAreDistinct, Merged, Stripped, AllSettleAtOnce, NoNeighbours;
    var x := Prepare(ms, normalize, fallback);
    RepairsPreparedIff(ms, normalize, fallback);
    PreparedIsNormalIff(ms, normalize, fallback);
    MergedHasNoNeighbours(Budgeted(Repair(ms), normalize, fallback));
    BudgetedStaysMerged(x, normalize, fallback);
    BudgetIsPointwise(Repair(x), normalize, fallback);
    MergedIsNoLonger(Budgeted(Repair(x), normalize, fallback));
  }

  lemma RepairsPreparedIff(ms: seq<Message>, normalize: Normalizer, fallback: nat -> string)
    ensures var x := Prepare(ms, normalize, fallback);
            && (Repair(x) == x <==> NoneHollow(ms) && LostCallsAreDistinct(Stripped(ms)))
            && (Repair(x) != x ==> |Repair(x)| < |x|)
  {
    hide Repair, Budgeted, Settled, NoneHollow, LostCallsAreDistinct, Merged, Stripped, NoStrays, AnsweredAtMostOnce;
    var r, x := Repair(ms), Prepare(ms, normalize, fallback);
    BudgetKeepsSkeleton(r, normalize, fallback);
    MergeKeepsSkeleton(Budgeted(r, normalize, fallback));
    SkeletonDecides(r, x);
    SkeletonDecides(x, r);
    RepairedIsSettled(ms);
    SettledIsFixedIff(r);
    SettledIsFixedIff(x);
    RepairIsFixedIff(ms);
  }

  /** Budgeting and merging leave the pairs alone: for every input, a prepared list is paired as the repaired one is. */
  lemma PreparedListsArePaired(ms: seq<Message>, normalize: Normalizer, fallback: nat -> string)
    ensures ResultsAreDeclared(Prepare(ms, normalize, fallback))
    ensures CallsAreAnswered(Prepare(ms, normalize, fallback)) <==> CallsAreAnswered(Repair(ms))
  {
    hide Repair, Budgeted, Merged, Skeleton, AllDeclared, CallsAreAnswered, ResultsAreDeclared;
    var r, x := Repair(ms), Prepare(ms, normalize, fallback);
    BudgetKeepsSkeleton(r, normalize, fallback);
    MergeKeepsSkeleton(Budgeted(r, normalize, fallback));
    RepairedIsSettled(ms);
    SkeletonDecides(r, x);
    DeclaredByPosition(x);
    SkeletonPairs(r, x);
  }

  lemma SkeletonPairs(a: seq<Message>, b: seq<Message>)
    requires Skeleton(a) == Skeleton(b)
    ensures CallsAreAnswered(a) <==> CallsAreAnswered(b)
  {
    hide Skeleton, CountResults, Declared, AnsweredIds, AllDeclared, NoneReopened, CallsAreAnswered;
    AnsweredByPosition(a);
    AnsweredByPosition(b);
    forall id ensures CountResults(a, id) == CountResults(b, id) {
      SkeletonSaysTheSame(a, id);
      SkeletonSaysTheSame(b, id);
    }
    SkeletonSaysTheSame(a, "");
    SkeletonSaysTheSame(b, "");
    SkeletonReopensTheSame(a);
    SkeletonReopensTheSame(b);
  }
}
