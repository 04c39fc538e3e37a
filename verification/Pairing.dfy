/** After repair, tool results and the calls they answer are paired. */
module Pairing {
  import opened Wrappers
  import opened RuntimeContext
  import opened Transcript

  // ----- counting ------------------------------------------------------------------

  function CountResults(ms: seq<Message>, id: string): nat {
    if ms == [] then 0 else (if IsResult(ms[0], id) then 1 else 0) + CountResults(ms[1..], id)
  }

  function CountCalls(calls: seq<Call>, id: string): nat {
    if calls == [] then 0
    else (if calls[0].Call? && calls[0].id == id && id != "" then 1 else 0) + CountCalls(calls[1..], id)
  }

  /** How often the messages declare a call with this id. */
  function CountDeclared(ms: seq<Message>, id: string): nat {
    if ms == [] then 0
    else (if ms[0].role == Assistant then CountCalls(ms[0].calls, id) else 0) + CountDeclared(ms[1..], id)
  }

  lemma {:induction false} ResultsAppend(a: seq<Message>, b: seq<Message>, id: string)
    ensures CountResults(a + b, id) == CountResults(a, id) + CountResults(b, id)
  {
    if a == [] { assert a + b == b; } else {
      assert (a + b)[1..] == a[1..] + b;
      ResultsAppend(a[1..], b, id);
    }
  }

  lemma {:induction false} CountDeclaredAppend(a: seq<Message>, b: seq<Message>, id: string)
    ensures CountDeclared(a + b, id) == CountDeclared(a, id) + CountDeclared(b, id)
  {
    if a == [] { assert a + b == b; } else {
      assert (a + b)[1..] == a[1..] + b;
      CountDeclaredAppend(a[1..], b, id);
    }
  }

  lemma {:induction false} DeclaredAppend(a: seq<Message>, b: seq<Message>)
    ensures Declared(a + b) == Declared(a) + Declared(b)
    decreases |b|
  {
    if b == [] { assert a + b == a; } else {
      var k := |b| - 1;
      assert (a + b)[..|a + b| - 1] == a + b[..k];
      DeclaredAppend(a, b[..k]);
    }
  }

  lemma {:induction false} CountCallsIsMembership(calls: seq<Call>, id: string)
    ensures CountCalls(calls, id) > 0 <==> id in set c | c in calls && c.Call? && c.id != "" :: c.id
  {
    if calls != [] {
      CountCallsIsMembership(calls[1..], id);
      assert forall c :: c in calls <==> c == calls[0] || c in calls[1..];
    }
  }

  lemma {:induction false} CountIsMembership(ms: seq<Message>, id: string)
    ensures CountDeclared(ms, id) > 0 <==> id in Declared(ms)
  {
    if ms != [] {
      CountIsMembership(ms[1..], id);
      assert ms == [ms[0]] + ms[1..];
      DeclaredAppend([ms[0]], ms[1..]);
      assert [ms[0]][..0] == [];
      CountCallsIsMembership(ms[0].calls, id);
    }
  }

  lemma {:induction false} CountIsAnswered(ms: seq<Message>, id: string)
    ensures CountResults(ms, id) > 0 <==> id in AnsweredIds(ms)
  {
    if ms != [] {
      CountIsAnswered(ms[1..], id);
      assert forall m :: m in ms <==> m == ms[0] || m in ms[1..];
    }
  }

  // ----- declared earlier ------------------------------------------------------------

  /** Every result's id is in `seen` or declared by an earlier message. */
  predicate AllDeclared(seen: set<string>, ms: seq<Message>)
    decreases |ms|
  {
    ms != [] ==>
    && (ms[0].role == Tool ==> ms[0].callId != "" && ms[0].callId in seen)
    && AllDeclared(seen + DeclaredBy(ms[0]), ms[1..])
  }

  lemma {:induction false} AllDeclaredAppend(seen: set<string>, a: seq<Message>, b: seq<Message>)
    ensures AllDeclared(seen, a + b) <==> AllDeclared(seen, a) && AllDeclared(seen + Declared(a), b)
    decreases |a|
  {
    if a == [] {
      assert a + b == b && seen + Declared(a) == seen;
    } else {
      assert (a + b)[1..] == a[1..] + b;
      AllDeclaredAppend(seen + DeclaredBy(a[0]), a[1..], b);
      assert a == [a[0]] + a[1..];
      DeclaredAppend([a[0]], a[1..]);
      assert [a[0]][..0] == [];
      assert seen + DeclaredBy(a[0]) + Declared(a[1..]) == seen + Declared(a);
    }
  }

  lemma {:induction false} DeclaredResultsHaveIds(seen: set<string>, ms: seq<Message>)
    requires AllDeclared(seen, ms)
    ensures forall m :: m in ms && m.role == Tool ==> m.callId != ""
    decreases |ms|
  {
    if ms != [] { DeclaredResultsHaveIds(seen + DeclaredBy(ms[0]), ms[1..]); }
  }

  lemma {:induction false} DropKeepsDeclarations(ms: seq<Message>)
    ensures Declared(DropOrphans(ms)) == Declared(ms)
    decreases |ms|
  {
    if ms != [] {
      var k := |ms| - 1;
      DropKeepsDeclarations(ms[..k]);
      if Kept(ms, k) {
        DeclaredAppend(DropOrphans(ms[..k]), [ms[k]]);
        assert [ms[k]][..0] == [];
      } else {
        assert DropOrphans(ms) == DropOrphans(ms[..k]);
      }
    }
  }

  lemma {:induction false} DroppedIsDeclared(ms: seq<Message>)
    ensures AllDeclared({}, DropOrphans(ms))
    decreases |ms|
  {
    if ms != [] {
      var k := |ms| - 1;
      DroppedIsDeclared(ms[..k]);
      DropKeepsDeclarations(ms[..k]);
      if Kept(ms, k) {
        AllDeclaredAppend({}, DropOrphans(ms[..k]), [ms[k]]);
        assert [ms[k]][1..] == [];
      } else {
        assert DropOrphans(ms) == DropOrphans(ms[..k]);
      }
    }
  }

  /** After dropping, every id is answered at most once, and exactly when it was fulfilled. */
  lemma {:induction false} DroppedIsAnsweredOnce(ms: seq<Message>, id: string)
    ensures CountResults(DropOrphans(ms), id) == if id in Fulfilled(ms) && id != "" then 1 else 0
    decreases |ms|
  {
    if ms != [] {
      var k := |ms| - 1;
      DroppedIsAnsweredOnce(ms[..k], id);
      if Kept(ms, k) {
        ResultsAppend(DropOrphans(ms[..k]), [ms[k]], id);
        assert [ms[k]][1..] == [];
      } else {
        assert DropOrphans(ms) == DropOrphans(ms[..k]);
      }
    }
  }

  // ----- what backfilling adds ---------------------------------------------------------

  lemma {:induction false} SyntheticCount(calls: seq<Call>, answered: set<string>, id: string)
    ensures CountResults(SyntheticRows(calls, answered), id) == if id in answered then 0 else CountCalls(calls, id)
    ensures forall m :: m in SyntheticRows(calls, answered) ==> m.role == Tool
  {
    if calls != [] {
      SyntheticCount(calls[1..], answered, id);
      var head := if calls[0].Call? && calls[0].id != "" && calls[0].id !in answered then [Synthetic(calls[0])] else [];
      ResultsAppend(head, SyntheticRows(calls[1..], answered), id);
      if head != [] { assert head[1..] == []; }
    }
  }

  lemma {:induction false} ToolsDeclareNothing(ms: seq<Message>, id: string)
    requires forall m :: m in ms ==> m.role == Tool
    ensures CountDeclared(ms, id) == 0 && Declared(ms) == {}
  {
    if ms != [] {
      ToolsDeclareNothing(ms[1..], id);
      assert ms == [ms[0]] + ms[1..];
      DeclaredAppend([ms[0]], ms[1..]);
      assert [ms[0]][..0] == [];
    }
  }

  /** The pieces of a filled list that starts with an assistant. */
  lemma FillPieces(ms: seq<Message>, answered: set<string>)
    requires ms != [] && ms[0].role == Assistant
    ensures var run := ToolRun(ms[1..]);
            && ms == ms[..run + 1] + ms[run + 1..]
            && Fill(ms, answered) ==
                 ms[..run + 1] + (SyntheticRows(ms[0].calls, answered) + Fill(ms[run + 1..], answered))
            && (forall m :: m in ms[1..run + 1] ==> m.role == Tool)
            && ms[..run + 1] == [ms[0]] + ms[1..run + 1]
  {
    hide ToolRun, SyntheticRows, Fill;
    BlockIsTools(ms);
    FillUnfolds(ms, answered);
    var run := ToolRun(ms[1..]);
    Associative(ms[..run + 1], SyntheticRows(ms[0].calls, answered), Fill(ms[run + 1..], answered));
  }

  lemma FillUnfolds(ms: seq<Message>, answered: set<string>)
    requires ms != [] && ms[0].role == Assistant
    ensures var run := ToolRun(ms[1..]);
            Fill(ms, answered) == ms[..run + 1] + SyntheticRows(ms[0].calls, answered) + Fill(ms[run + 1..], answered)
  {
    hide ToolRun, SyntheticRows;
  }

  lemma Associative(a: seq<Message>, b: seq<Message>, c: seq<Message>)
    ensures a + b + c == a + (b + c)
  {
  }

  lemma BlockIsTools(ms: seq<Message>)
    requires ms != []
    ensures forall m :: m in ms[1..ToolRun(ms[1..]) + 1] ==> m.role == Tool
  {
    RunIsTools(ms[1..]);
    hide ToolRun;
    assert ms[1..ToolRun(ms[1..]) + 1] == ms[1..][..ToolRun(ms[1..])];
  }

  lemma {:induction false} RunIsTools(ms: seq<Message>)
    ensures forall m :: m in ms[..ToolRun(ms)] ==> m.role == Tool
  {
    if ms != [] && ms[0].role == Tool {
      RunIsTools(ms[1..]);
      assert ms[..ToolRun(ms)] == [ms[0]] + ms[1..][..ToolRun(ms[1..])];
    }
  }

  lemma {:induction false} FillCounts(ms: seq<Message>, answered: set<string>, id: string)
    ensures CountResults(Fill(ms, answered), id) ==
              CountResults(ms, id) + if id in answered then 0 else CountDeclared(ms, id)
    ensures CountDeclared(Fill(ms, answered), id) == CountDeclared(ms, id)
    decreases |ms|
  {
    if ms == [] {
    } else if ms[0].role == Assistant {
      var run, rows := ToolRun(ms[1..]), SyntheticRows(ms[0].calls, answered);
      var rest := Fill(ms[run + 1..], answered);
      FillPieces(ms, answered);
      FillCounts(ms[run + 1..], answered, id);
      SyntheticCount(ms[0].calls, answered, id);
      ResultsAppend(ms[..run + 1], ms[run + 1..], id);
      ResultsAppend(ms[..run + 1], rows + rest, id);
      ResultsAppend(rows, rest, id);
      CountDeclaredAppend(ms[..run + 1], ms[run + 1..], id);
      CountDeclaredAppend(ms[..run + 1], rows + rest, id);
      CountDeclaredAppend(rows, rest, id);
      ToolsDeclareNothing(rows, id);
      CountDeclaredAppend([ms[0]], ms[1..run + 1], id);
      ToolsDeclareNothing(ms[1..run + 1], id);
      assert [ms[0]][1..] == [];
    } else {
      FillCounts(ms[1..], answered, id);
      assert Fill(ms, answered)[1..] == Fill(ms[1..], answered);
    }
  }

  lemma {:induction false} DeclaredRowsAreFine(seen: set<string>, ms: seq<Message>)
    requires forall m :: m in ms ==> m.role == Tool && m.callId != "" && m.callId in seen
    ensures AllDeclared(seen, ms)
  {
    if ms != [] { DeclaredRowsAreFine(seen + DeclaredBy(ms[0]), ms[1..]); }
  }

  lemma {:induction false} SyntheticIsDeclared(calls: seq<Call>, answered: set<string>)
    ensures forall m :: m in SyntheticRows(calls, answered) ==>
              m.role == Tool && m.callId != "" && m.callId !in answered
              && m.callId in set c | c in calls && c.Call? && c.id != "" :: c.id
  {
    if calls != [] {
      SyntheticIsDeclared(calls[1..], answered);
      assert forall c :: c in calls[1..] ==> c in calls;
    }
  }

  lemma {:induction false} FillIsDeclared(seen: set<string>, ms: seq<Message>, answered: set<string>)
    requires AllDeclared(seen, ms)
    ensures AllDeclared(seen, Fill(ms, answered))
    ensures Declared(Fill(ms, answered)) == Declared(ms)
    decreases |ms|
  {
    hide DeclaredBy, SyntheticRows;
    if ms == [] {
    } else if ms[0].role == Assistant {
      var run, rows := ToolRun(ms[1..]), SyntheticRows(ms[0].calls, answered);
      var block, later := ms[..run + 1], ms[run + 1..];
      FillPieces(ms, answered);
      AllDeclaredAppend(seen, block, later);
      FillIsDeclared(seen + Declared(block), later, answered);
      BlockDeclares(ms, run, answered);
      DeclaredRowsAreFine(seen + Declared(block), rows);
      ToolsDeclareNothing(rows, "");
      assert seen + Declared(block) + Declared(rows) == seen + Declared(block);
      AllDeclaredAppend(seen + Declared(block), rows, Fill(later, answered));
      AllDeclaredAppend(seen, block, rows + Fill(later, answered));
      DeclaredAppend(block, later);
      DeclaredAppend(rows, Fill(later, answered));
      DeclaredAppend(block, rows + Fill(later, answered));
    } else {
      FillIsDeclared(seen + DeclaredBy(ms[0]), ms[1..], answered);
      assert Fill(ms, answered)[1..] == Fill(ms[1..], answered);
      assert ms == [ms[0]] + ms[1..];
      DeclaredAppend([ms[0]], ms[1..]);
      DeclaredAppend([ms[0]], Fill(ms[1..], answered));
    }
  }

  lemma BlockDeclares(ms: seq<Message>, run: nat, answered: set<string>)
    requires ms != [] && ms[0].role == Assistant && run < |ms|
    requires ms[..run + 1] == [ms[0]] + ms[1..run + 1] && forall m :: m in ms[1..run + 1] ==> m.role == Tool
    ensures Declared(ms[..run + 1]) == DeclaredBy(ms[0])
    ensures forall m :: m in SyntheticRows(ms[0].calls, answered) ==>
              m.role == Tool && m.callId != "" && m.callId in Declared(ms[..run + 1])
  {
    SyntheticIsDeclared(ms[0].calls, answered);
    DeclaredAppend([ms[0]], ms[1..run + 1]);
    ToolsDeclareNothing(ms[1..run + 1], "");
    assert [ms[0]][..0] == [];
  }

  // ----- no call is declared again after its answer -------------------------------------

  /** No assistant declares an id in `done` or one answered before it. */
  predicate NoneReopened(done: set<string>, ms: seq<Message>)
    decreases |ms|
  {
    ms != [] ==>
      && DeclaredBy(ms[0]) !! done
      && NoneReopened(done + (if ms[0].role == Tool && ms[0].callId != "" then {ms[0].callId} else {}), ms[1..])
  }

  lemma {:induction false} NoneReopenedAppend(done: set<string>, a: seq<Message>, b: seq<Message>)
    ensures NoneReopened(done, a + b) <==> NoneReopened(done, a) && NoneReopened(done + AnsweredIds(a), b)
    decreases |a|
  {
    if a == [] {
      assert a + b == b && done + AnsweredIds(a) == done;
    } else {
      var answer := if a[0].role == Tool && a[0].callId != "" then {a[0].callId} else {};
      assert (a + b)[1..] == a[1..] + b;
      NoneReopenedAppend(done + answer, a[1..], b);
      assert forall m :: m in a <==> m == a[0] || m in a[1..];
      assert done + answer + AnsweredIds(a[1..]) == done + AnsweredIds(a);
    }
  }

  /** Ids that the messages never declare may be done or not. */
  lemma {:induction false} UndeclaredIsNoMatter(done: set<string>, extra: set<string>, ms: seq<Message>)
    requires extra !! Declared(ms)
    ensures NoneReopened(done + extra, ms) <==> NoneReopened(done, ms)
    decreases |ms|
  {
    if ms != [] {
      assert ms == [ms[0]] + ms[1..];
      DeclaredAppend([ms[0]], ms[1..]);
      assert [ms[0]][..0] == [];
      var answer := if ms[0].role == Tool && ms[0].callId != "" then {ms[0].callId} else {};
      UndeclaredIsNoMatter(done + answer, extra, ms[1..]);
      assert done + extra + answer == done + answer + extra;
    }
  }

  lemma {:induction false} ToolsReopenNothing(done: set<string>, ms: seq<Message>)
    requires forall m :: m in ms ==> m.role == Tool
    ensures NoneReopened(done, ms)
    decreases |ms|
  {
    if ms != [] {
      ToolsReopenNothing(done + (if ms[0].callId != "" then {ms[0].callId} else {}), ms[1..]);
    }
  }

  lemma AnsweredAppend(a: seq<Message>, b: seq<Message>)
    ensures AnsweredIds(a + b) == AnsweredIds(a) + AnsweredIds(b)
  {
  }

  /** Synthetic rows answer only ids declared right before them. */
  lemma SyntheticAnswers(calls: seq<Call>, answered: set<string>, id: string)
    ensures id in AnsweredIds(SyntheticRows(calls, answered)) <==> id !in answered && CountCalls(calls, id) > 0
  {
    CountIsAnswered(SyntheticRows(calls, answered), id);
    SyntheticCount(calls, answered, id);
  }

  /** If unanswered ids are declared once, backfilling reopens a call exactly when one was reopened before. */
  lemma {:induction false} FillReopensNothing(done: set<string>, ms: seq<Message>, answered: set<string>)
    requires forall id :: id !in answered ==> CountDeclared(ms, id) <= 1
    ensures NoneReopened(done, Fill(ms, answered)) <==> NoneReopened(done, ms)
    decreases |ms|
  {
    if ms == [] {
    } else if ms[0].role == Assistant {
      var run, rows := ToolRun(ms[1..]), SyntheticRows(ms[0].calls, answered);
      var block, later := ms[..run + 1], ms[run + 1..];
      FillPieces(ms, answered);
      NoneReopenedAppend(done, block, later);
      NoneReopenedAppend(done, block, rows + Fill(later, answered));
      NoneReopenedAppend(done + AnsweredIds(block), rows, Fill(later, answered));
      SyntheticIsDeclared(ms[0].calls, answered);
      ToolsReopenNothing(done + AnsweredIds(block), rows);
      forall id | id !in answered ensures CountDeclared(later, id) <= 1 { CountDeclaredAppend(block, later, id); }
      FillReopensNothing(done + AnsweredIds(block), later, answered);
      RowsAreNew(ms, run, answered);
      UndeclaredIsNoMatter(done + AnsweredIds(block), AnsweredIds(rows), Fill(later, answered));
    } else {
      var answer := if ms[0].role == Tool && ms[0].callId != "" then {ms[0].callId} else {};
      forall id | id !in answered ensures CountDeclared(ms[1..], id) <= 1 { }
      FillReopensNothing(done + answer, ms[1..], answered);
      assert Fill(ms, answered)[1..] == Fill(ms[1..], answered);
    }
  }

  lemma RowsAreNew(ms: seq<Message>, run: nat, answered: set<string>)
    requires ms != [] && ms[0].role == Assistant && run == ToolRun(ms[1..])
    requires forall id :: id !in answered ==> CountDeclared(ms, id) <= 1
    ensures AnsweredIds(SyntheticRows(ms[0].calls, answered)) !! Declared(Fill(ms[run + 1..], answered))
  {
    var later := ms[run + 1..];
    FillPieces(ms, answered);
    forall id | id in AnsweredIds(SyntheticRows(ms[0].calls, answered)) ensures id !in Declared(Fill(later, answered)) {
      SyntheticAnswers(ms[0].calls, answered, id);
      CountDeclaredAppend(ms[..run + 1], later, id);
      CountDeclaredAppend([ms[0]], ms[1..run + 1], id);
      FillCounts(later, answered, id);
      CountIsMembership(Fill(later, answered), id);
    }
  }

  // ----- pairing, by position ------------------------------------------------------------

  ghost predicate Declares(ms: seq<Message>, j: int, id: string) {
    0 <= j < |ms| && id in DeclaredBy(ms[j])
  }

  ghost predicate Answers(ms: seq<Message>, i: int, id: string) {
    0 <= i < |ms| && IsResult(ms[i], id)
  }

  ghost predicate OnlyAnswer(ms: seq<Message>, i: int, id: string) {
    Answers(ms, i, id) && forall k :: Answers(ms, k, id) ==> k == i
  }

  /** Every result follows an assistant that declares its id. */
  ghost predicate ResultsAreDeclared(ms: seq<Message>) {
    forall i :: 0 <= i < |ms| && ms[i].role == Tool ==>
      ms[i].callId != "" && exists j :: j < i && Declares(ms, j, ms[i].callId)
  }

  /** Every declared id has exactly one result, and it comes after the declaration. */
  ghost predicate CallsAreAnswered(ms: seq<Message>) {
    forall j, id :: Declares(ms, j, id) ==>
      exists i :: j < i && OnlyAnswer(ms, i, id)
  }

  lemma {:induction false} DeclaredAt(ms: seq<Message>, id: string)
    ensures id in Declared(ms) <==> exists j :: Declares(ms, j, id)
    decreases |ms|
  {
    if ms != [] {
      var k := |ms| - 1;
      DeclaredAt(ms[..k], id);
      assert forall j :: 0 <= j < k ==> ms[..k][j] == ms[j];
      if id in Declared(ms[..k]) {
        var j :| Declares(ms[..k], j, id);
        assert Declares(ms, j, id);
      }
      if j :| Declares(ms, j, id) {
        if j < k { assert Declares(ms[..k], j, id); }
      }
      if id in DeclaredBy(ms[k]) { assert Declares(ms, k, id); }
    }
  }

  lemma DeclaredByPosition(ms: seq<Message>)
    requires AllDeclared({}, ms)
    ensures ResultsAreDeclared(ms)
  {
    forall i | 0 <= i < |ms| && ms[i].role == Tool
      ensures ms[i].callId != "" && exists j :: j < i && Declares(ms, j, ms[i].callId)
    {
      assert ms == ms[..i] + ms[i..];
      AllDeclaredAppend({}, ms[..i], ms[i..]);
      assert ms[i..][0] == ms[i];
      DeclaredAt(ms[..i], ms[i].callId);
      var j :| Declares(ms[..i], j, ms[i].callId);
      assert Declares(ms, j, ms[i].callId);
    }
  }

  lemma {:induction false} NoneCounted(ms: seq<Message>, id: string)
    ensures CountResults(ms, id) == 0 <==> forall i :: !Answers(ms, i, id)
  {
    if ms != [] {
      NoneCounted(ms[1..], id);
      AnswersBehind(ms, id);
      if IsResult(ms[0], id) { assert Answers(ms, 0, id); }
    }
  }

  /** The answers after the first message, seen from the whole list. */
  lemma AnswersBehind(ms: seq<Message>, id: string)
    requires ms != []
    ensures forall i {:trigger Answers(ms, i, id)} :: Answers(ms, i, id) && i != 0 ==> Answers(ms[1..], i - 1, id)
    ensures forall i {:trigger Answers(ms[1..], i, id)} :: Answers(ms[1..], i, id) ==> Answers(ms, i + 1, id)
  {
  }

  lemma {:induction false} OneCounted(ms: seq<Message>, id: string)
    ensures CountResults(ms, id) == 1 <==> exists i :: OnlyAnswer(ms, i, id)
  {
    if ms != [] {
      var rest := ms[1..];
      AnswersBehind(ms, id);
      if IsResult(ms[0], id) {
        NoneCounted(rest, id);
        assert Answers(ms, 0, id);
        if CountResults(rest, id) == 0 { assert OnlyAnswer(ms, 0, id); }
      } else {
        OneCounted(rest, id);
        if i :| OnlyAnswer(rest, i, id) { assert OnlyAnswer(ms, i + 1, id); }
        if i :| OnlyAnswer(ms, i, id) { assert OnlyAnswer(rest, i - 1, id); }
      }
    }
  }

  /** No declared id is in `done`, and no answer stands before a declaration of its id. */
  ghost predicate DeclaredFirst(done: set<string>, ms: seq<Message>) {
    && (forall j, id :: Declares(ms, j, id) ==> id !in done)
    && (forall j, k, id :: Declares(ms, j, id) && Answers(ms, k, id) ==> j < k)
  }

  lemma {:induction false} ReopenedAt(done: set<string>, ms: seq<Message>)
    ensures NoneReopened(done, ms) <==> DeclaredFirst(done, ms)
    decreases |ms|
  {
    if ms != [] {
      var rest := ms[1..];
      var answer := if ms[0].role == Tool && ms[0].callId != "" then {ms[0].callId} else {};
      ReopenedAt(done + answer, rest);
      assert forall i :: 1 <= i < |ms| ==> ms[i] == rest[i - 1];
      assert forall j, id :: Declares(rest, j, id) ==> Declares(ms, j + 1, id);
      assert forall j, id :: Declares(ms, j, id) && j > 0 ==> Declares(rest, j - 1, id);
      assert forall k, id :: Answers(rest, k, id) ==> Answers(ms, k + 1, id);
      assert forall k, id :: Answers(ms, k, id) && k > 0 ==> Answers(rest, k - 1, id);
      assert forall id :: id in answer <==> Answers(ms, 0, id);
      assert forall id :: id in DeclaredBy(ms[0]) <==> Declares(ms, 0, id);
    }
  }

  /** Calls are answered, by position, exactly when each declared id is answered once and never reopened. */
  lemma AnsweredByPosition(ms: seq<Message>)
    ensures CallsAreAnswered(ms) <==> EachAnsweredOnce(ms) && NoneReopened({}, ms)
  {
    if CallsAreAnswered(ms) { AnsweredMeansOnce(ms); }
    if EachAnsweredOnce(ms) && NoneReopened({}, ms) { OnceMeansAnswered(ms); }
  }

  ghost predicate EachAnsweredOnce(ms: seq<Message>) {
    forall id :: id in Declared(ms) ==> CountResults(ms, id) == 1
  }

  lemma AnsweredMeansOnce(ms: seq<Message>)
    requires CallsAreAnswered(ms)
    ensures EachAnsweredOnce(ms) && NoneReopened({}, ms)
  {
    hide NoneReopened, Declared, CountResults;
    forall id | id in Declared(ms) ensures CountResults(ms, id) == 1 {
      DeclaredAt(ms, id);
      OneCounted(ms, id);
    }
    forall j, k, id | Declares(ms, j, id) && Answers(ms, k, id) ensures j < k {
      var i :| j < i && OnlyAnswer(ms, i, id);
    }
    ReopenedAt({}, ms);
  }

  lemma OnceMeansAnswered(ms: seq<Message>)
    requires EachAnsweredOnce(ms) && NoneReopened({}, ms)
    ensures CallsAreAnswered(ms)
  {
    hide NoneReopened, Declared, CountResults;
    ReopenedAt({}, ms);
    forall j, id | Declares(ms, j, id) ensures exists i :: j < i && OnlyAnswer(ms, i, id) {
      DeclaredAt(ms, id);
      OneCounted(ms, id);
      var i :| OnlyAnswer(ms, i, id);
      assert j < i;
    }
  }
}
