/** What the four repair passes establish together, and when repairing twice changes nothing. */
module RepairTheorems {
  import opened Wrappers
  import opened Strings
  import opened RuntimeContext
  import opened Transcript
  import opened Pairing

  /** The list the two stripping passes hand on. */
  function Stripped(ms: seq<Message>): seq<Message> {
    StripMalformed(StripPlaceholders(ms))
  }

  /** Whatever the input, every result in a repaired list follows a call that declares its id. */
  lemma RepairedResultsAreDeclared(ms: seq<Message>)
    ensures ResultsAreDeclared(Repair(ms))
  {
    var d := DropOrphans(Stripped(ms));
    DroppedIsDeclared(Stripped(ms));
    FillIsDeclared({}, d, AnsweredIds(d));
    DeclaredByPosition(Repair(ms));
  }

  // ----- counting through the drop pass ---------------------------------------------------

  lemma {:induction false} DropKeepsCounts(ms: seq<Message>, id: string)
    ensures CountDeclared(DropOrphans(ms), id) == CountDeclared(ms, id)
    decreases |ms|
  {
    if ms != [] {
      var k := |ms| - 1;
      DropKeepsCounts(ms[..k], id);
      assert ms == ms[..k] + [ms[k]];
      CountDeclaredAppend(ms[..k], [ms[k]], id);
      assert [ms[k]][1..] == [];
      if Kept(ms, k) {
        CountDeclaredAppend(DropOrphans(ms[..k]), [ms[k]], id);
      } else {
        assert DropOrphans(ms) == DropOrphans(ms[..k]);
      }
    }
  }

  lemma {:induction false} FulfilledIsNamed(ms: seq<Message>)
    ensures "" !in Fulfilled(ms)
    decreases |ms|
  {
    if ms != [] { FulfilledIsNamed(ms[..|ms| - 1]); }
  }

  lemma DroppedAnswers(ms: seq<Message>)
    ensures AnsweredIds(DropOrphans(ms)) == Fulfilled(ms)
  {
    FulfilledIsNamed(ms);
    forall id ensures id in AnsweredIds(DropOrphans(ms)) <==> id in Fulfilled(ms) {
      DroppedIsAnsweredOnce(ms, id);
      CountIsAnswered(DropOrphans(ms), id);
    }
  }

  /** Each call whose result is missing is the only one with its id. */
  ghost predicate LostCallsAreDistinct(stripped: seq<Message>) {
    forall id :: id in Declared(stripped) && id !in Fulfilled(stripped) ==> CountDeclared(stripped, id) == 1
  }

  /** How often a repaired list answers an id. */
  lemma RepairedCount(ms: seq<Message>, id: string)
    ensures var s := Stripped(ms);
            CountResults(Repair(ms), id) == if id in Fulfilled(s) then 1 else CountDeclared(s, id)
    ensures CountDeclared(Repair(ms), id) == CountDeclared(Stripped(ms), id)
  {
    var s := Stripped(ms);
    var d := DropOrphans(s);
    DroppedAnswers(s);
    FulfilledIsNamed(s);
    DroppedIsAnsweredOnce(s, id);
    DropKeepsCounts(s, id);
    FillCounts(d, AnsweredIds(d), id);
  }

  lemma RepairedDeclares(ms: seq<Message>)
    ensures Declared(Repair(ms)) == Declared(Stripped(ms)) && AllDeclared({}, Repair(ms))
  {
    var d := DropOrphans(Stripped(ms));
    DroppedIsDeclared(Stripped(ms));
    DropKeepsDeclarations(Stripped(ms));
    FillIsDeclared({}, d, AnsweredIds(d));
  }

  /**
   A repaired list answers every declared call exactly once and after its declaration, if and only if no id that lost
   its result was declared twice and no declaration of an id stands behind a result the drop pass keeps for it.
   */
  lemma RepairPairsCallsIff(ms: seq<Message>)
    ensures var s := Stripped(ms);
            CallsAreAnswered(Repair(ms)) <==> LostCallsAreDistinct(s) && DeclaredFirst({}, DropOrphans(s))
  {
    hide Declared, CountResults, CountDeclared, Fulfilled, NoneReopened, DeclaredFirst, CallsAreAnswered;
    var s := Stripped(ms);
    var d := DropOrphans(s);
    AnsweredByPosition(Repair(ms));
    RepairedDeclares(ms);
    ReopenedAt({}, d);
    assert EachAnsweredOnce(Repair(ms)) <==> LostCallsAreDistinct(s) by {
      forall id ensures CountResults(Repair(ms), id) == if id in Fulfilled(s) then 1 else CountDeclared(s, id) {
        RepairedCount(ms, id);
      }
    }
    if LostCallsAreDistinct(s) {
      DroppedAnswers(s);
      forall id | id !in AnsweredIds(d) ensures CountDeclared(d, id) <= 1 {
        DropKeepsCounts(s, id);
        CountIsMembership(s, id);
      }
      FillReopensNothing({}, d, AnsweredIds(d));
    }
  }

  lemma {:induction false} DeclaredTwice(ms: seq<Message>, j: nat, k: nat, id: string)
    requires j < k && Declares(ms, j, id) && Declares(ms, k, id)
    ensures CountDeclared(ms, id) >= 2
  {
    assert ms == ms[..k] + ms[k..] && ms[..k] == ms[..j] + ms[j..k];
    CountDeclaredAppend(ms[..k], ms[k..], id);
    CountDeclaredAppend(ms[..j], ms[j..k], id);
    assert ms[k..][0] == ms[k] && ms[j..k][0] == ms[j];
    CountCallsIsMembership(ms[k].calls, id);
    CountCallsIsMembership(ms[j].calls, id);
  }

  /** If the surviving call ids are distinct, repair pairs every call with one result behind it. */
  lemma DistinctCallsArePaired(ms: seq<Message>)
    requires forall id :: CountDeclared(Stripped(ms), id) <= 1
    ensures CallsAreAnswered(Repair(ms)) && ResultsAreDeclared(Repair(ms))
  {
    hide Declared, CountResults, CountDeclared, Fulfilled, NoneReopened, CallsAreAnswered, AllDeclared, Kept;
    var s := Stripped(ms);
    var d := DropOrphans(s);
    forall id | id in Declared(s) ensures CountDeclared(s, id) == 1 { CountIsMembership(s, id); }
    DroppedIsDeclared(s);
    DeclaredByPosition(d);
    forall j, k, id | Declares(d, j, id) && Answers(d, k, id) ensures j < k {
      var first :| first < k && Declares(d, first, id);
      DropKeepsCounts(s, id);
      if first < j { DeclaredTwice(d, first, j, id); }
    }
    assert DeclaredFirst({}, d);
    RepairPairsCallsIff(ms);
    RepairedResultsAreDeclared(ms);
  }

  // ----- taking the synthetic rows out again ------------------------------------------------

  /** A result for an id that nobody had answered. */
  predicate IsAdded(m: Message, answered: set<string>) {
    m.role == Tool && m.callId != "" && m.callId !in answered
  }

  /** The list without such results; those that name no id stay. */
  function WithoutSynthetic(ms: seq<Message>, answered: set<string>): seq<Message> {
    if ms == [] then []
    else (if IsAdded(ms[0], answered) then [] else [ms[0]]) + WithoutSynthetic(ms[1..], answered)
  }

  lemma WithoutUnfolds(m: Message, ms: seq<Message>, answered: set<string>)
    ensures WithoutSynthetic([m] + ms, answered) ==
            (if IsAdded(m, answered) then [] else [m]) + WithoutSynthetic(ms, answered)
  {
    assert ([m] + ms)[1..] == ms && ([m] + ms)[0] == m;
  }

  lemma {:induction false} WithoutAppend(a: seq<Message>, b: seq<Message>, answered: set<string>)
    ensures WithoutSynthetic(a + b, answered) == WithoutSynthetic(a, answered) + WithoutSynthetic(b, answered)
  {
    if a == [] {
      assert a + b == b;
    } else {
      WithoutAppend(a[1..], b, answered);
      WithoutUnfolds(a[0], a[1..], answered);
      WithoutUnfolds(a[0], a[1..] + b, answered);
      hide WithoutSynthetic, IsAdded;
      var head := if IsAdded(a[0], answered) then [] else [a[0]];
      Associative(head, WithoutSynthetic(a[1..], answered), WithoutSynthetic(b, answered));
      assert a == [a[0]] + a[1..];
      Associative([a[0]], a[1..], b);
    }
  }

  predicate OnlyAnswered(ms: seq<Message>, answered: set<string>) {
    forall m :: m in ms ==> !IsAdded(m, answered)
  }

  lemma {:induction false} NothingToTake(ms: seq<Message>, answered: set<string>)
    requires OnlyAnswered(ms, answered)
    ensures WithoutSynthetic(ms, answered) == ms
  {
    if ms != [] { NothingToTake(ms[1..], answered); }
  }

  lemma {:induction false} RowsGo(rows: seq<Message>, answered: set<string>)
    requires forall m :: m in rows ==> IsAdded(m, answered)
    ensures WithoutSynthetic(rows, answered) == []
  {
    if rows != [] { RowsGo(rows[1..], answered); }
  }

  lemma PartsAreAnswered(a: seq<Message>, b: seq<Message>, answered: set<string>)
    requires OnlyAnswered(a + b, answered)
    ensures OnlyAnswered(a, answered) && OnlyAnswered(b, answered)
  {
    assert forall m :: m in a || m in b ==> m in a + b;
  }

  lemma {:induction false} FillAddsOnlySynthetic(ms: seq<Message>, answered: set<string>)
    requires OnlyAnswered(ms, answered)
    ensures WithoutSynthetic(Fill(ms, answered), answered) == ms
    decreases |ms|
  {
    hide Fill, WithoutSynthetic, OnlyAnswered, SyntheticRows, ToolRun;
    if ms == [] {
      FillOfNothing(answered);
      NothingToTake(ms, answered);
    } else if ms[0].role == Assistant {
      var run, rows := ToolRun(ms[1..]), SyntheticRows(ms[0].calls, answered);
      var block, later := ms[..run + 1], ms[run + 1..];
      FillPieces(ms, answered);
      PartsAreAnswered(block, later, answered);
      FillAddsOnlySynthetic(later, answered);
      SyntheticIsDeclared(ms[0].calls, answered);
      RowsGo(rows, answered);
      NothingToTake(block, answered);
      WithoutAppend(rows, Fill(later, answered), answered);
      WithoutAppend(block, rows + Fill(later, answered), answered);
      assert [] + later == later;
    } else {
      FillSkips(ms, answered);
      PartsAreAnswered([ms[0]], ms[1..], answered);
      FillAddsOnlySynthetic(ms[1..], answered);
      NothingToTake([ms[0]], answered);
      WithoutAppend([ms[0]], Fill(ms[1..], answered), answered);
    }
  }

  /** Deleting the rows that backfilling added gives the list it was given. */
  lemma BackfillIsUndone(ms: seq<Message>)
    ensures WithoutSynthetic(Backfill(ms), AnsweredIds(ms)) == ms
  {
    FillAddsOnlySynthetic(ms, AnsweredIds(ms));
  }

  // ----- repairing twice ------------------------------------------------------------------

  predicate AllWellFormed(ms: seq<Message>) {
    forall m :: m in ms && m.role == Assistant ==> |ValidCalls(m.calls)| == |m.calls|
  }

  /** An assistant whose calls are all malformed and whose text is a placeholder. */
  predicate Hollow(m: Message) {
    m.role == Assistant && PlaceholderText(m) && m.calls != [] && ValidCalls(m.calls) == []
  }

  ghost predicate NoStrays(ms: seq<Message>) {
    forall m :: m in ms ==> !StrayPlaceholder(m)
  }

  ghost predicate AnsweredAtMostOnce(ms: seq<Message>) {
    forall id :: CountResults(ms, id) <= 1
  }

  lemma {:induction false} WellFormedIsKept(ms: seq<Message>)
    requires AllWellFormed(ms)
    ensures StripMalformed(ms) == ms
  {
    hide ValidCalls, WellFormed;
    if ms != [] {
      var k := |ms| - 1;
      WellFormedIsKept(ms[..k]);
      assert ms[k] in ms;
      OneWellFormed(ms[k]);
    }
  }

  lemma OneWellFormed(m: Message)
    requires m.role == Assistant ==> |ValidCalls(m.calls)| == |m.calls|
    ensures WellFormed(m) == [m]
  {
    hide ValidCalls;
  }

  lemma {:induction false} ValidCallsAreValid(calls: seq<Call>)
    ensures ValidCalls(ValidCalls(calls)) == ValidCalls(calls)
    ensures |ValidCalls(calls)| <= |calls|
  {
    if calls != [] {
      ValidCallsAreValid(calls[1..]);
      if ValidCall(calls[0]) {
        assert ValidCalls(calls)[1..] == ValidCalls(calls[1..]);
      } else {
        assert ValidCalls(calls) == ValidCalls(calls[1..]);
      }
    }
  }

  lemma {:induction false} StrippingMakesWellFormed(ms: seq<Message>)
    ensures AllWellFormed(StripMalformed(ms))
  {
    if ms != [] {
      StrippingMakesWellFormed(ms[..|ms| - 1]);
      ValidCallsAreValid(ms[|ms| - 1].calls);
    }
  }

  ghost predicate AnyStray(ms: seq<Message>) {
    exists m :: m in ms && StrayPlaceholder(m)
  }

  ghost predicate AnyHollow(ms: seq<Message>) {
    exists m :: m in ms && Hollow(m)
  }

  /** A stray placeholder survives the two stripping passes exactly where a hollow assistant was. */
  lemma {:induction false} StraysComeFromHollow(ms: seq<Message>)
    ensures AnyStray(Stripped(ms)) <==> AnyHollow(ms)
  {
    hide StrayPlaceholder, Hollow, WellFormed, Stripped, AnyStray, AnyHollow;
    if ms == [] {
      NothingIsStray();
    } else {
      var k := |ms| - 1;
      StraysComeFromHollow(ms[..k]);
      StrippedStep(ms);
      assert ms == ms[..k] + [ms[k]];
      StraysGrow(Stripped(ms[..k]), ms[..k], ms[k]);
    }
  }

  lemma NothingIsStray()
    ensures !AnyStray(Stripped([])) && !AnyHollow([])
  {
  }

  lemma StraysGrow(stripped: seq<Message>, ms: seq<Message>, m: Message)
    requires AnyStray(stripped) <==> AnyHollow(ms)
    ensures AnyStray(if StrayPlaceholder(m) then stripped else stripped + WellFormed(m)) <==> AnyHollow(ms + [m])
  {
    hide StrayPlaceholder, Hollow, WellFormed, AnyHollow;
    OneMore(ms, m);
    if StrayPlaceholder(m) {
      StrayIsNotHollow(m);
    } else {
      HollowIsLeft(m);
      AnyStrayAppend(stripped, WellFormed(m));
      if Hollow(m) { assert m.(calls := []) in WellFormed(m); }
    }
  }

  lemma AnyStrayAppend(a: seq<Message>, b: seq<Message>)
    ensures AnyStray(a + b) <==> AnyStray(a) || AnyStray(b)
  {
    hide StrayPlaceholder;
    assert forall m :: m in a + b <==> m in a || m in b;
  }

  lemma StrippedStep(ms: seq<Message>)
    requires ms != []
    ensures var (before, m) := (Stripped(ms[..|ms| - 1]), ms[|ms| - 1]);
            Stripped(ms) == if StrayPlaceholder(m) then before else before + WellFormed(m)
  {
    hide StrayPlaceholder, WellFormed;
    var k := |ms| - 1;
    var p := StripPlaceholders(ms[..k]);
    if StrayPlaceholder(ms[k]) {
      assert StripPlaceholders(ms) == p;
    } else {
      assert StripPlaceholders(ms) == p + [ms[k]];
      assert (p + [ms[k]])[..|p|] == p;
    }
  }

  lemma OneMore(ms: seq<Message>, m: Message)
    ensures AnyHollow(ms + [m]) <==> AnyHollow(ms) || Hollow(m)
  {
    hide Hollow;
    assert m in ms + [m] && forall x :: x in ms ==> x in ms + [m];
  }

  lemma StrayIsNotHollow(m: Message)
    requires StrayPlaceholder(m)
    ensures !Hollow(m)
  {
  }

  lemma HollowIsLeft(m: Message)
    requires !StrayPlaceholder(m)
    ensures Hollow(m) ==> WellFormed(m) == [m.(calls := [])] && StrayPlaceholder(m.(calls := []))
    ensures !Hollow(m) ==> forall x :: x in WellFormed(m) ==> !StrayPlaceholder(x)
  {
    ValidCallsAreValid(m.calls);
    assert Strip("") == "";
  }

  lemma {:induction false} FillKeepsOthers(ms: seq<Message>, answered: set<string>)
    ensures forall m: Message :: m.role != Tool ==> (m in Fill(ms, answered) <==> m in ms)
    decreases |ms|
  {
    if ms == [] {
    } else if ms[0].role == Assistant {
      FillPieces(ms, answered);
      FillKeepsOthers(ms[ToolRun(ms[1..]) + 1..], answered);
      SyntheticIsDeclared(ms[0].calls, answered);
    } else {
      FillKeepsOthers(ms[1..], answered);
      assert ms == [ms[0]] + ms[1..];
    }
  }

  lemma {:induction false} DropKeepsOthers(ms: seq<Message>)
    ensures forall m: Message :: m.role != Tool ==> (m in DropOrphans(ms) <==> m in ms)
    decreases |ms|
  {
    if ms != [] {
      DropKeepsOthers(ms[..|ms| - 1]);
      assert ms == ms[..|ms| - 1] + [ms[|ms| - 1]];
    }
  }

  /** In a list whose results are all declared, the drop pass only removes repeated answers. */
  lemma {:induction false} DeclaredIsFulfilled(ms: seq<Message>)
    requires AllDeclared({}, ms)
    ensures Fulfilled(ms) == AnsweredIds(ms)
    decreases |ms|
  {
    if ms != [] {
      var k := |ms| - 1;
      assert ms == ms[..k] + [ms[k]];
      AllDeclaredAppend({}, ms[..k], [ms[k]]);
      DeclaredIsFulfilled(ms[..k]);
      AnsweredAppend(ms[..k], [ms[k]]);
    }
  }

  lemma {:induction false} DropShortens(ms: seq<Message>)
    ensures |DropOrphans(ms)| <= |ms|
    ensures |DropOrphans(ms)| == |ms| ==> DropOrphans(ms) == ms
    decreases |ms|
  {
    if ms != [] { DropShortens(ms[..|ms| - 1]); }
  }

  lemma {:induction false} DropsNothingIff(ms: seq<Message>)
    requires AllDeclared({}, ms)
    ensures DropOrphans(ms) == ms <==> AnsweredAtMostOnce(ms)
    decreases |ms|
  {
    if DropOrphans(ms) == ms {
      forall id ensures CountResults(ms, id) <= 1 { DroppedIsAnsweredOnce(ms, id); }
    } else {
      var k := |ms| - 1;
      assert ms == ms[..k] + [ms[k]];
      AllDeclaredAppend({}, ms[..k], [ms[k]]);
      DropsNothingIff(ms[..k]);
      if DropOrphans(ms[..k]) != ms[..k] {
        var id :| CountResults(ms[..k], id) > 1;
        ResultsAppend(ms[..k], [ms[k]], id);
      } else {
        DeclaredIsFulfilled(ms[..k]);
        var id := ms[k].callId;
        CountIsAnswered(ms[..k], id);
        ResultsAppend(ms[..k], [ms[k]], id);
        assert CountResults(ms, id) > 1;
      }
    }
  }

  lemma {:induction false} NothingToFill(ms: seq<Message>, answered: set<string>)
    requires Declared(ms) <= answered
    ensures Fill(ms, answered) == ms
    decreases |ms|
  {
    hide Declared, DeclaredBy, SyntheticRows, ToolRun, Fill;
    if ms == [] {
      FillOfNothing(answered);
    } else {
      FirstDeclares(ms);
      if ms[0].role == Assistant {
        var run := ToolRun(ms[1..]);
        var block, later := ms[..run + 1], ms[run + 1..];
        FillUnfolds(ms, answered);
        assert ms == block + later;
        DeclaredAppend(block, later);
        NothingToFill(later, answered);
        NoRowsFor(ms[0], answered);
        assert block + [] == block;
      } else {
        FillSkips(ms, answered);
        NothingToFill(ms[1..], answered);
      }
    }
  }

  lemma FillOfNothing(answered: set<string>)
    ensures Fill([], answered) == []
  {
  }

  lemma FillSkips(ms: seq<Message>, answered: set<string>)
    requires ms != [] && ms[0].role != Assistant
    ensures Fill(ms, answered) == [ms[0]] + Fill(ms[1..], answered) && ms == [ms[0]] + ms[1..]
  {
  }

  lemma FirstDeclares(ms: seq<Message>)
    requires ms != []
    ensures Declared(ms) == DeclaredBy(ms[0]) + Declared(ms[1..])
  {
    hide DeclaredBy;
    assert ms == [ms[0]] + ms[1..] && [ms[0]][..0] == [];
    DeclaredAppend([ms[0]], ms[1..]);
  }

  lemma NoRowsFor(m: Message, answered: set<string>)
    requires m.role == Assistant && DeclaredBy(m) <= answered
    ensures SyntheticRows(m.calls, answered) == []
  {
    NoRows(m.calls, answered);
  }

  lemma {:induction false} NoRows(calls: seq<Call>, answered: set<string>)
    requires (set c | c in calls && c.Call? && c.id != "" :: c.id) <= answered
    ensures SyntheticRows(calls, answered) == []
  {
    if calls != [] {
      assert calls[0] in calls && forall c :: c in calls[1..] ==> c in calls;
      NoRows(calls[1..], answered);
    }
  }

  /** Removing stray placeholders touches neither declarations nor results. */
  lemma {:induction false} StraysCarryNothing(ms: seq<Message>)
    ensures Declared(StripPlaceholders(ms)) == Declared(ms)
    ensures AnsweredIds(StripPlaceholders(ms)) == AnsweredIds(ms)
    ensures AllDeclared({}, ms) ==> AllDeclared({}, StripPlaceholders(ms))
    ensures AllWellFormed(ms) ==> AllWellFormed(StripPlaceholders(ms))
  {
    if ms != [] {
      var k := |ms| - 1;
      StraysCarryNothing(ms[..k]);
      assert ms == ms[..k] + [ms[k]];
      AllDeclaredAppend({}, ms[..k], [ms[k]]);
      AnsweredAppend(ms[..k], [ms[k]]);
      if StrayPlaceholder(ms[k]) {
        assert StripPlaceholders(ms) == StripPlaceholders(ms[..k]);
        assert DeclaredBy(ms[k]) == {};
      } else {
        AllDeclaredAppend({}, StripPlaceholders(ms[..k]), [ms[k]]);
        AnsweredAppend(StripPlaceholders(ms[..k]), [ms[k]]);
        DeclaredAppend(StripPlaceholders(ms[..k]), [ms[k]]);
        assert [ms[k]][..0] == [];
      }
    }
  }

  lemma {:induction false} StrayShortens(ms: seq<Message>)
    ensures |StripPlaceholders(ms)| <= |ms|
    ensures NoStrays(ms) <==> StripPlaceholders(ms) == ms
    ensures StripPlaceholders(ms) != ms ==> |StripPlaceholders(ms)| < |ms|
  {
    if ms != [] {
      StrayShortens(ms[..|ms| - 1]);
      assert ms == ms[..|ms| - 1] + [ms[|ms| - 1]];
    }
  }

  ghost predicate NoneHollow(ms: seq<Message>) {
    forall m :: m in ms ==> !Hollow(m)
  }

  /** A list with the outward marks of a repaired one. */
  ghost predicate Settled(ms: seq<Message>) {
    AllWellFormed(ms) && AllDeclared({}, ms) && Declared(ms) <= AnsweredIds(ms)
  }

  /** On a settled list, repair is left unchanged exactly if no stray placeholder and no repeated answer is in it. */
  lemma SettledIsFixedIff(ms: seq<Message>)
    requires Settled(ms)
    ensures Repair(ms) == ms <==> NoStrays(ms) && AnsweredAtMostOnce(ms)
    ensures Repair(ms) != ms ==> |Repair(ms)| < |ms|
  {
    hide Declared, AllDeclared, Fulfilled, AnsweredIds, NoStrays, AnsweredAtMostOnce, AllWellFormed, StripPlaceholders,
         StripMalformed, DropOrphans, Fill;
    var p := StripPlaceholders(ms);
    StraysCarryNothing(ms);
    WellFormedIsKept(p);
    DeclaredIsFulfilled(p);
    DroppedAnswers(p);
    DropKeepsDeclarations(p);
    NothingToFill(DropOrphans(p), AnsweredIds(DropOrphans(p)));
    StrayShortens(ms);
    DropShortens(p);
    if p == ms { DropsNothingIff(ms); }
  }

  lemma RepairedIsSettled(ms: seq<Message>)
    ensures Settled(Repair(ms))
  {
    var s := Stripped(ms);
    var d := DropOrphans(s);
    RepairedDeclares(ms);
    StrippingMakesWellFormed(StripPlaceholders(ms));
    DropKeepsOthers(s);
    FillKeepsOthers(d, AnsweredIds(d));
    assert forall m: Message :: m.role == Assistant ==> (m in Repair(ms) <==> m in s);
    forall id | id in Declared(Repair(ms)) ensures id in AnsweredIds(Repair(ms)) {
      RepairedCount(ms, id);
      CountIsMembership(s, id);
      CountIsAnswered(Repair(ms), id);
    }
  }

  /**
   Repairing a repaired list changes nothing, if and only if the input has no hollow assistant (the first pass sees its
   calls and keeps it, the second strips the calls, and only the next repair removes it) and no call that lost its
   result shares its id with another.
   */
  lemma RepairIsFixedIff(ms: seq<Message>)
    ensures Repair(Repair(ms)) == Repair(ms) <==>
              NoneHollow(ms) && LostCallsAreDistinct(Stripped(ms))
  {
    var s := Stripped(ms);
    var r := Repair(ms);
    RepairedIsSettled(ms);
    hide Settled, Repair, Hollow, StrayPlaceholder, LostCallsAreDistinct, AnsweredAtMostOnce;
    SettledIsFixedIff(r);
    StraysComeFromHollow(ms);
    NoStrayAdded(ms);
    LostIdsAreCounted(ms);
  }

  lemma LostIdsAreCounted(ms: seq<Message>)
    ensures LostCallsAreDistinct(Stripped(ms)) <==> AnsweredAtMostOnce(Repair(ms))
  {
    hide Repair, Stripped, Fulfilled, Declared, CountResults, CountDeclared;
    var s := Stripped(ms);
    if LostCallsAreDistinct(s) {
      forall id ensures CountResults(Repair(ms), id) <= 1 {
        RepairedCount(ms, id);
        CountIsMembership(s, id);
      }
    } else {
      var id :| id in Declared(s) && id !in Fulfilled(s) && CountDeclared(s, id) != 1;
      RepairedCount(ms, id);
      CountIsMembership(s, id);
      assert CountResults(Repair(ms), id) > 1;
    }
  }

  lemma NoStrayAdded(ms: seq<Message>)
    ensures forall m :: StrayPlaceholder(m) ==> (m in Repair(ms) <==> m in Stripped(ms))
  {
    DropKeepsOthers(Stripped(ms));
    FillKeepsOthers(DropOrphans(Stripped(ms)), AnsweredIds(DropOrphans(Stripped(ms))));
  }

  // ----- inputs on which the two promises fail -----------------------------------------------

  const ASKED := Message(Assistant, Absent, [Call("c", Some(Name.Name("f")), Missing)], "", "", None, false)
  const ANSWER := Message(Tool, Text("done"), [], "c", "f", None, false)
  const HOLLOW := Message(Assistant, Text(PLACEHOLDER_TEXT), [Call("c", None, Missing)], "", "", None, false)

  lemma WellFormedAsked()
    ensures !StrayPlaceholder(ASKED) && WellFormed(ASKED) == [ASKED] && DeclaredBy(ASKED) == {"c"}
  {
    assert ASKED.calls[1..] == [];
    assert Call("c", Some(Name.Name("f")), Missing) in ASKED.calls;
  }

  /** A call id used again after its answer is left without a result behind it. */
  lemma ReusedIdIsNotPaired()
    ensures !CallsAreAnswered(Repair([ASKED, ANSWER, ASKED]))
  {
    var ms := [ASKED, ANSWER, ASKED];
    WellFormedAsked();
    StripLeavesThem();
    DropLeavesThem();
    hide StripMalformed, StripPlaceholders, DropOrphans, Repair, DeclaredBy;
    assert Declares(ms, 2, "c") && Answers(ms, 1, "c");
    RepairPairsCallsIff(ms);
  }

  lemma StripLeavesThem()
    ensures Stripped([ASKED, ANSWER, ASKED]) == [ASKED, ANSWER, ASKED]
  {
    var ms := [ASKED, ANSWER, ASKED];
    WellFormedAsked();
    assert !StrayPlaceholder(ANSWER) && WellFormed(ANSWER) == [ANSWER];
    hide StrayPlaceholder, WellFormed, ASKED, ANSWER;
    assert [ASKED][..0] == [] && [ASKED, ANSWER][..1] == [ASKED] && ms[..2] == [ASKED, ANSWER];
    assert StripPlaceholders([ASKED]) == [ASKED];
    assert StripPlaceholders([ASKED, ANSWER]) == [ASKED, ANSWER];
    assert StripPlaceholders(ms) == ms;
    assert StripMalformed([ASKED]) == [ASKED];
    assert StripMalformed([ASKED, ANSWER]) == [ASKED, ANSWER];
    assert StripMalformed(ms) == ms;
  }

  lemma DropLeavesThem()
    ensures DropOrphans([ASKED, ANSWER, ASKED]) == [ASKED, ANSWER, ASKED]
  {
    var ms := [ASKED, ANSWER, ASKED];
    WellFormedAsked();
    hide DeclaredBy;
    assert [ASKED][..0] == [] && [ASKED, ANSWER][..1] == [ASKED] && ms[..2] == [ASKED, ANSWER];
    assert DropOrphans([ASKED]) == [ASKED];
    assert Kept([ASKED, ANSWER], 1) by { assert Declared([ASKED]) == {"c"} && Fulfilled([ASKED]) == {}; }
    assert DropOrphans([ASKED, ANSWER]) == [ASKED, ANSWER];
  }

  /** A hollow assistant makes the second repair differ from the first. */
  lemma HollowIsRepairedTwice()
    ensures Repair(Repair([HOLLOW])) != Repair([HOLLOW])
  {
    assert HOLLOW.calls[1..] == [];
    assert PlaceholderText(HOLLOW) by {
      assert Strip(PLACEHOLDER_TEXT) == PLACEHOLDER_TEXT;
    }
    assert HOLLOW in [HOLLOW] && Hollow(HOLLOW);
    RepairIsFixedIff([HOLLOW]);
  }
}
