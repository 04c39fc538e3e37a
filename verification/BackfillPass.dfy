/**
 `backfill_missing_tool_results` inserts into a growing list under a running offset.
 It computes `Transcript.Backfill`: after each assistant's block of results, one
 synthetic result per unanswered call.
 */
module BackfillPass {
  import opened Wrappers
  import opened Transcript
  import opened RuntimeContext

  /** A declared call and the index of its assistant message. */
  type Site = (nat, Call)

  function Sites(i: nat, calls: seq<Call>): seq<Site> {
    if calls == [] then []
    else (if calls[0].Call? && calls[0].id != "" then [(i, calls[0])] else []) + Sites(i, calls[1..])
  }

  /** The declared calls of `ms[i..]`, in order. */
  function SitesFrom(ms: seq<Message>, i: nat): seq<Site>
    requires i <= |ms|
    decreases |ms| - i
  {
    if i == |ms| then []
    else (if ms[i].role == Assistant then Sites(i, ms[i].calls) else []) + SitesFrom(ms, i + 1)
  }

  function Unanswered(sites: seq<Site>, answered: set<string>): seq<Site> {
    if sites == [] then []
    else (if sites[0].1.Call? && sites[0].1.id !in answered then [sites[0]] else []) + Unanswered(sites[1..], answered)
  }

  /** Where the block of results after the message at `a` ends. */
  function EndOf(ms: seq<Message>, a: nat): nat
    requires a < |ms|
    ensures a < EndOf(ms, a) <= |ms|
  {
    a + 1 + ToolRun(ms[a + 1..])
  }

  // ----- inserting rows at gaps ---------------------------------------------------

  /** `ms[i..]` with each row placed in its gap; gap `g` lies just before `ms[g]`. */
  function Interleave(ms: seq<Message>, i: nat, rows: seq<(nat, Message)>): seq<Message>
    requires i <= |ms|
    decreases |ms| - i + |rows|
  {
    if rows != [] && rows[0].0 <= i then [rows[0].1] + Interleave(ms, i, rows[1..])
    else if i < |ms| then [ms[i]] + Interleave(ms, i + 1, rows)
    else []
  }

  predicate Ascending(rows: seq<(nat, Message)>, lo: nat, hi: nat) {
    && (forall k :: 0 <= k < |rows| ==> lo <= rows[k].0 <= hi)
    && (forall k, l :: 0 <= k <= l < |rows| ==> rows[k].0 <= rows[l].0)
  }

  function InsertAt(s: seq<Message>, at: nat, m: Message): seq<Message>
    requires at <= |s|
  {
    s[..at] + [m] + s[at..]
  }

  lemma InsertBehind(first: Message, s: seq<Message>, at: nat, m: Message)
    requires at <= |s|
    ensures InsertAt([first] + s, at + 1, m) == [first] + InsertAt(s, at, m)
  {
  }

  lemma InterleaveTakes(ms: seq<Message>, i: nat, rows: seq<(nat, Message)>)
    requires i <= |ms| && rows != [] && rows[0].0 <= i
    ensures Interleave(ms, i, rows) == [rows[0].1] + Interleave(ms, i, rows[1..])
  {
  }

  lemma InterleavePasses(ms: seq<Message>, i: nat, rows: seq<(nat, Message)>)
    requires i < |ms| && (rows == [] || rows[0].0 > i)
    ensures Interleave(ms, i, rows) == [ms[i]] + Interleave(ms, i + 1, rows)
  {
  }

  lemma RestAscends(rows: seq<(nat, Message)>, i: nat, hi: nat)
    requires rows != [] && Ascending(rows, i, hi)
    ensures Ascending(rows[1..], i, hi)
    ensures rows[0].0 > i ==> Ascending(rows, i + 1, hi)
  {
  }

  /** A row for the last gap so far goes exactly as many places past its gap as rows were placed before it. */
  lemma {:induction false} InterleaveLast(ms: seq<Message>, i: nat, rows: seq<(nat, Message)>, last: (nat, Message))
    requires i <= last.0 <= |ms| && Ascending(rows, i, last.0)
    ensures |Interleave(ms, i, rows)| == |ms| - i + |rows|
    ensures Interleave(ms, i, rows + [last]) == InsertAt(Interleave(ms, i, rows), last.0 - i + |rows|, last.1)
    decreases |ms| - i + |rows|
  {
    hide InsertAt, Interleave;
    var all := rows + [last];
    if rows != [] { RestAscends(rows, i, last.0); }
    if rows != [] && rows[0].0 <= i {
      assert all[1..] == rows[1..] + [last] && all[0] == rows[0];
      InterleaveTakes(ms, i, rows);
      InterleaveTakes(ms, i, all);
      InterleaveLast(ms, i, rows[1..], last);
      InsertBehind(rows[0].1, Interleave(ms, i, rows[1..]), last.0 - i + |rows| - 1, last.1);
    } else if rows == [] && last.0 == i {
      assert all[1..] == [];
      InterleaveTakes(ms, i, all);
      InterleaveNothing(ms, i);
      InsertFirst(ms[i..], last.1);
    } else {
      assert all[0].0 > i;
      InterleavePasses(ms, i, rows);
      InterleavePasses(ms, i, all);
      InterleaveLast(ms, i + 1, rows, last);
      InsertBehind(ms[i], Interleave(ms, i + 1, rows), last.0 - i + |rows| - 1, last.1);
    }
  }

  lemma InsertFirst(s: seq<Message>, m: Message)
    ensures InsertAt(s, 0, m) == [m] + s
  {
  }

  lemma {:induction false} InterleaveNothing(ms: seq<Message>, i: nat)
    requires i <= |ms|
    ensures Interleave(ms, i, []) == ms[i..]
    decreases |ms| - i
  {
    if i < |ms| { InterleaveNothing(ms, i + 1); }
  }

  lemma {:induction false} InterleaveSkip(ms: seq<Message>, i: nat, j: nat, rows: seq<(nat, Message)>)
    requires i <= j <= |ms| && Ascending(rows, j, |ms|)
    ensures Interleave(ms, i, rows) == ms[i..j] + Interleave(ms, j, rows)
    decreases j - i
  {
    if i < j { InterleaveSkip(ms, i + 1, j, rows); }
  }

  lemma {:induction false} InterleaveHere(ms: seq<Message>, i: nat, here: seq<Message>, rows: seq<(nat, Message)>)
    requires i <= |ms|
    ensures Interleave(ms, i, AtGap(i, here) + rows) == here + Interleave(ms, i, rows)
  {
    if here != [] {
      assert (AtGap(i, here) + rows)[1..] == AtGap(i, here[1..]) + rows;
      InterleaveHere(ms, i, here[1..], rows);
    } else {
      assert AtGap(i, here) + rows == rows;
    }
  }

  function AtGap(g: nat, rows: seq<Message>): seq<(nat, Message)> {
    seq(|rows|, k requires 0 <= k < |rows| => (g, rows[k]))
  }

  /** The missing rows of `ms[i..]`, each with the gap it belongs in. */
  function RowsFrom(ms: seq<Message>, i: nat, answered: set<string>): seq<(nat, Message)>
    requires i <= |ms|
    decreases |ms| - i
  {
    if i == |ms| then []
    else
      (if ms[i].role == Assistant then AtGap(EndOf(ms, i), SyntheticRows(ms[i].calls, answered)) else [])
      + RowsFrom(ms, i + 1, answered)
  }

  // ----- blocks of results -----------------------------------------------------------

  lemma {:induction false} ToolRunIsTools(ms: seq<Message>)
    ensures forall k :: 0 <= k < ToolRun(ms) ==> ms[k].role == Tool
    ensures ToolRun(ms) < |ms| ==> ms[ToolRun(ms)].role != Tool
  {
    if ms != [] && ms[0].role == Tool {
      ToolRunIsTools(ms[1..]);
      assert forall k :: 1 <= k < |ms| ==> ms[k] == ms[1..][k - 1];
    }
  }

  lemma EndOfIsBlockEnd(ms: seq<Message>, a: nat)
    requires a < |ms|
    ensures forall k :: a < k < EndOf(ms, a) ==> ms[k].role == Tool
    ensures EndOf(ms, a) < |ms| ==> ms[EndOf(ms, a)].role != Tool
  {
    ToolRunIsTools(ms[a + 1..]);
    assert forall k :: a < k < |ms| ==> ms[k] == ms[a + 1..][k - a - 1];
  }

  /** Blocks of results do not overlap, so their ends come in the order of their assistants. */
  lemma EndsAreOrdered(ms: seq<Message>, a: nat, b: nat)
    requires a < b < |ms| && ms[b].role == Assistant
    ensures EndOf(ms, a) <= b
  {
    EndOfIsBlockEnd(ms, a);
  }

  lemma AscendingAppend(a: seq<(nat, Message)>, b: seq<(nat, Message)>, lo: nat, mid: nat, hi: nat)
    requires lo <= mid <= hi && Ascending(a, lo, mid) && Ascending(b, mid, hi)
    ensures Ascending(a + b, lo, hi)
  {
  }

  /** Tool messages declare nothing. */
  lemma {:induction false} NoRowsInBlock(ms: seq<Message>, i: nat, j: nat, answered: set<string>)
    requires i <= j <= |ms| && forall k :: i <= k < j ==> ms[k].role == Tool
    ensures RowsFrom(ms, i, answered) == RowsFrom(ms, j, answered)
    decreases j - i
  {
    if i < j { NoRowsInBlock(ms, i + 1, j, answered); }
  }

  /** The missing rows of an assistant come first, all in the gap at the end of its block. */
  lemma RowsOfAssistant(ms: seq<Message>, i: nat, answered: set<string>)
    requires i < |ms| && ms[i].role == Assistant
    ensures RowsFrom(ms, i, answered) ==
              AtGap(EndOf(ms, i), SyntheticRows(ms[i].calls, answered)) + RowsFrom(ms, EndOf(ms, i), answered)
  {
    EndOfIsBlockEnd(ms, i);
    NoRowsInBlock(ms, i + 1, EndOf(ms, i), answered);
  }

  lemma {:induction false} RowsAscend(ms: seq<Message>, i: nat, answered: set<string>)
    requires i <= |ms|
    ensures Ascending(RowsFrom(ms, i, answered), i, |ms|)
    decreases |ms| - i
  {
    hide Ascending, RowsFrom, AtGap, EndOf;
    if i == |ms| {
      NoRowsAtEnd(ms, answered);
    } else if ms[i].role == Assistant {
      var end, here := EndOf(ms, i), SyntheticRows(ms[i].calls, answered);
      RowsOfAssistant(ms, i, answered);
      RowsAscend(ms, end, answered);
      GapAscends(end, here, i);
      AscendingAppend(AtGap(end, here), RowsFrom(ms, end, answered), i, end, |ms|);
    } else {
      RowsAscend(ms, i + 1, answered);
      AscendingAppend([], RowsFrom(ms, i + 1, answered), i, i + 1, |ms|) by { NoneAscend(i, i + 1); }
      SkipOne(ms, i, answered);
    }
  }

  lemma NoneAscend(lo: nat, hi: nat)
    ensures Ascending([], lo, hi)
  {
  }

  lemma NoRowsAtEnd(ms: seq<Message>, answered: set<string>)
    ensures RowsFrom(ms, |ms|, answered) == [] && Ascending([], |ms|, |ms|)
  {
  }

  lemma SkipOne(ms: seq<Message>, i: nat, answered: set<string>)
    requires i < |ms| && ms[i].role != Assistant
    ensures RowsFrom(ms, i, answered) == [] + RowsFrom(ms, i + 1, answered)
    ensures RowsFrom(ms, i, answered) == RowsFrom(ms, i + 1, answered)
  {
  }

  lemma GapAscends(g: nat, rows: seq<Message>, lo: nat)
    requires lo <= g
    ensures Ascending(AtGap(g, rows), lo, g) && Ascending(AtGap(g, rows), g, g)
  {
  }

  /** Placing every missing row in its gap is exactly `Fill`. */
  lemma {:induction false} GapsAreFill(ms: seq<Message>, i: nat, answered: set<string>)
    requires i <= |ms|
    ensures Interleave(ms, i, RowsFrom(ms, i, answered)) == Fill(ms[i..], answered)
    decreases |ms| - i
  {
    hide Ascending, RowsFrom, AtGap, Interleave, Fill, EndOf, SyntheticRows;
    FillFrom(ms, i, answered);
    if i == |ms| {
      NoRowsAtEnd(ms, answered);
      InterleaveNothing(ms, i);
    } else if ms[i].role == Assistant {
      var end, here := EndOf(ms, i), SyntheticRows(ms[i].calls, answered);
      var later := RowsFrom(ms, end, answered);
      RowsOfAssistant(ms, i, answered);
      RowsAscend(ms, end, answered);
      GapAscends(end, here, end);
      AscendingAppend(AtGap(end, here), later, end, end, |ms|);
      InterleaveSkip(ms, i, end, AtGap(end, here) + later);
      InterleaveHere(ms, end, here, later);
      GapsAreFill(ms, end, answered);
      assert ms[i..end] + (here + Fill(ms[end..], answered)) == ms[i..end] + here + Fill(ms[end..], answered);
    } else {
      SkipOne(ms, i, answered);
      RowsAscend(ms, i + 1, answered);
      InterleaveSkip(ms, i, i + 1, RowsFrom(ms, i + 1, answered));
      GapsAreFill(ms, i + 1, answered);
      assert ms[i..i + 1] == [ms[i]];
    }
  }

  /** `Fill` of a tail of the list, one step on. */
  lemma FillFrom(ms: seq<Message>, i: nat, answered: set<string>)
    requires i <= |ms|
    ensures i == |ms| ==> Fill(ms[i..], answered) == []
    ensures i < |ms| && ms[i].role == Assistant ==>
              var end := EndOf(ms, i);
              Fill(ms[i..], answered) == ms[i..end] + SyntheticRows(ms[i].calls, answered) + Fill(ms[end..], answered)
    ensures i < |ms| && ms[i].role != Assistant ==> Fill(ms[i..], answered) == [ms[i]] + Fill(ms[i + 1..], answered)
  {
    hide SyntheticRows, ToolRun;
    if i < |ms| {
      assert ms[i..][1..] == ms[i + 1..];
      var end := EndOf(ms, i);
      assert ms[i..][..end - i] == ms[i..end] && ms[i..][end - i..] == ms[end..];
    }
  }

  // ----- the list the loop walks -------------------------------------------------------

  /** Each site of the list stands for the row at the same position. */
  predicate Matches(ms: seq<Message>, sites: seq<Site>, rows: seq<(nat, Message)>) {
    && |sites| == |rows|
    && forall k :: 0 <= k < |sites| ==>
         && sites[k].0 < |ms| && ms[sites[k].0].role == Assistant && sites[k].1.Call?
         && rows[k] == (EndOf(ms, sites[k].0), Synthetic(sites[k].1))
  }

  lemma MatchesAppend(ms: seq<Message>, s1: seq<Site>, r1: seq<(nat, Message)>, s2: seq<Site>, r2: seq<(nat, Message)>)
    requires Matches(ms, s1, r1) && Matches(ms, s2, r2)
    ensures Matches(ms, s1 + s2, r1 + r2)
  {
    hide EndOf, Synthetic;
  }

  lemma {:induction false} UnansweredAppend(a: seq<Site>, b: seq<Site>, answered: set<string>)
    ensures Unanswered(a + b, answered) == Unanswered(a, answered) + Unanswered(b, answered)
  {
    if a == [] {
      assert a + b == b;
    } else {
      assert (a + b)[1..] == a[1..] + b;
      UnansweredAppend(a[1..], b, answered);
    }
  }

  lemma {:induction false} CallsMatch(ms: seq<Message>, i: nat, calls: seq<Call>, answered: set<string>)
    requires i < |ms| && ms[i].role == Assistant
    ensures Matches(ms, Unanswered(Sites(i, calls), answered), AtGap(EndOf(ms, i), SyntheticRows(calls, answered)))
    ensures forall k :: 0 <= k < |Unanswered(Sites(i, calls), answered)| ==>
              Unanswered(Sites(i, calls), answered)[k].0 == i
  {
    hide EndOf, Synthetic, Matches, AtGap;
    var end := EndOf(ms, i);
    if calls == [] {
      MatchesNone(ms, end);
    } else {
      CallsMatch(ms, i, calls[1..], answered);
      FirstCall(i, calls, answered);
      var later, rest := Unanswered(Sites(i, calls[1..]), answered), SyntheticRows(calls[1..], answered);
      hide Sites, Unanswered, SyntheticRows;
      if calls[0].Call? && calls[0].id != "" && calls[0].id !in answered {
        MatchesOne(ms, (i, calls[0]));
        MatchesAppend(ms, [(i, calls[0])], [(end, Synthetic(calls[0]))], later, AtGap(end, rest));
        GapOfOne(end, Synthetic(calls[0]), rest);
      }
    }
  }

  lemma GapOfOne(end: nat, row: Message, rest: seq<Message>)
    ensures AtGap(end, [row] + rest) == [(end, row)] + AtGap(end, rest)
  {
  }

  /** The first call of a list gives one site and one row if it lacks an answer, and nothing otherwise. */
  lemma FirstCall(i: nat, calls: seq<Call>, answered: set<string>)
    requires calls != []
    ensures var later, rest := Unanswered(Sites(i, calls[1..]), answered), SyntheticRows(calls[1..], answered);
            if calls[0].Call? && calls[0].id != "" && calls[0].id !in answered then
              && Unanswered(Sites(i, calls), answered) == [(i, calls[0])] + later
              && SyntheticRows(calls, answered) == [Synthetic(calls[0])] + rest
            else
              Unanswered(Sites(i, calls), answered) == later && SyntheticRows(calls, answered) == rest
  {
    hide Synthetic;
    var head := if calls[0].Call? && calls[0].id != "" then [(i, calls[0])] else [];
    UnansweredAppend(head, Sites(i, calls[1..]), answered);
    if head != [] && calls[0].id !in answered {
      OneUnanswered((i, calls[0]), answered);
    } else {
      assert Unanswered(head, answered) == [];
    }
  }

  lemma OneUnanswered(site: Site, answered: set<string>)
    requires site.1.Call? && site.1.id !in answered
    ensures Unanswered([site], answered) == [site]
  {
    assert [site][1..] == [];
  }

  lemma MatchesNone(ms: seq<Message>, end: nat)
    ensures Matches(ms, [], AtGap(end, [])) && AtGap(end, []) == []
  {
  }

  lemma MatchesOne(ms: seq<Message>, site: Site)
    requires site.0 < |ms| && ms[site.0].role == Assistant && site.1.Call?
    ensures Matches(ms, [site], [(EndOf(ms, site.0), Synthetic(site.1))])
  {
  }

  lemma {:induction false} SitesMatch(ms: seq<Message>, i: nat, answered: set<string>)
    requires i <= |ms|
    ensures Matches(ms, Unanswered(SitesFrom(ms, i), answered), RowsFrom(ms, i, answered))
    decreases |ms| - i
  {
    hide EndOf, Matches, AtGap, Sites, SyntheticRows;
    if i == |ms| {
      MatchesNone(ms, 0);
    } else {
      SitesMatch(ms, i + 1, answered);
      if ms[i].role == Assistant {
        UnansweredAppend(Sites(i, ms[i].calls), SitesFrom(ms, i + 1), answered);
        CallsMatch(ms, i, ms[i].calls, answered);
        MatchesAppend(ms, Unanswered(Sites(i, ms[i].calls), answered),
                      AtGap(EndOf(ms, i), SyntheticRows(ms[i].calls, answered)),
                      Unanswered(SitesFrom(ms, i + 1), answered), RowsFrom(ms, i + 1, answered));
      } else {
        SkipOne(ms, i, answered);
        NoSites(ms, i, answered);
      }
    }
  }

  lemma NoSites(ms: seq<Message>, i: nat, answered: set<string>)
    requires i < |ms| && ms[i].role != Assistant
    ensures Unanswered(SitesFrom(ms, i), answered) == Unanswered(SitesFrom(ms, i + 1), answered)
  {
    assert SitesFrom(ms, i) == [] + SitesFrom(ms, i + 1) == SitesFrom(ms, i + 1);
  }

  predicate OrderedFrom(sites: seq<Site>, lo: nat) {
    && (forall k :: 0 <= k < |sites| ==> lo <= sites[k].0)
    && (forall k, l :: 0 <= k <= l < |sites| ==> sites[k].0 <= sites[l].0)
  }

  lemma OrderedAppend(here: seq<Site>, later: seq<Site>, i: nat)
    requires (forall k :: 0 <= k < |here| ==> here[k].0 == i) && OrderedFrom(later, i + 1)
    ensures OrderedFrom(here + later, i)
  {
  }

  lemma {:induction false} SitesAreOrdered(ms: seq<Message>, i: nat, answered: set<string>)
    requires i <= |ms|
    ensures OrderedFrom(Unanswered(SitesFrom(ms, i), answered), i)
    decreases |ms| - i
  {
    hide Sites, EndOf, SyntheticRows, Matches;
    if i < |ms| {
      SitesAreOrdered(ms, i + 1, answered);
      if ms[i].role == Assistant {
        UnansweredAppend(Sites(i, ms[i].calls), SitesFrom(ms, i + 1), answered);
        CallsMatch(ms, i, ms[i].calls, answered);
        OrderedAppend(Unanswered(Sites(i, ms[i].calls), answered), Unanswered(SitesFrom(ms, i + 1), answered), i);
      } else {
        NoSites(ms, i, answered);
      }
    }
  }

  // ----- the pass ------------------------------------------------------------------------

  lemma {:induction false} AnsweredGrows(ms: seq<Message>, i: nat)
    requires i < |ms|
    ensures AnsweredIds(ms[..i + 1]) ==
              AnsweredIds(ms[..i]) + if ms[i].role == Tool && ms[i].callId != "" then {ms[i].callId} else {}
  {
    assert ms[..i + 1] == ms[..i] + [ms[i]];
  }

  /** The first loop and the comprehension: the declared calls nobody answered. */
  lemma SitesStep(ms: seq<Message>, i: nat)
    requires i < |ms|
    ensures SitesFrom(ms, i) == if ms[i].role == Assistant then Sites(i, ms[i].calls) + SitesFrom(ms, i + 1)
                                else SitesFrom(ms, i + 1)
  {
    hide Sites;
    assert [] + SitesFrom(ms, i + 1) == SitesFrom(ms, i + 1);
  }

  method CollectMissing(messages: seq<Message>) returns (missing: seq<Site>)
    ensures missing == Unanswered(SitesFrom(messages, 0), AnsweredIds(messages))
  {
    var declared: seq<Site> := [];
    var fulfilled: set<string> := {};
    for i := 0 to |messages|
      invariant declared + SitesFrom(messages, i) == SitesFrom(messages, 0)
      invariant fulfilled == AnsweredIds(messages[..i])
    {
      AnsweredGrows(messages, i);
      SitesStep(messages, i);
      hide AnsweredIds, SitesFrom, Sites;
      var msg := messages[i];
      if msg.role == Assistant {
        declared := declared + Sites(i, msg.calls);
      } else if msg.role == Tool && msg.callId != "" {
        fulfilled := fulfilled + {msg.callId};
      }
    }
    assert messages[..|messages|] == messages && declared == SitesFrom(messages, 0);
    missing := Unanswered(declared, fulfilled);
  }

  method BackfillMissingToolResults(messages: seq<Message>) returns (updated: seq<Message>)
    ensures updated == Backfill(messages)
  {
    var missing := CollectMissing(messages);
    if missing == [] {
      NothingMissing(messages);
      return messages;
    }
    updated := InsertMissing(messages, missing);
  }

  lemma NothingMissing(ms: seq<Message>)
    requires Unanswered(SitesFrom(ms, 0), AnsweredIds(ms)) == []
    ensures Backfill(ms) == ms
  {
    hide RowsFrom, SitesFrom, AnsweredIds, Interleave, Fill;
    SitesMatch(ms, 0, AnsweredIds(ms));
    assert RowsFrom(ms, 0, AnsweredIds(ms)) == [];
    GapsAreFill(ms, 0, AnsweredIds(ms));
    InterleaveNothing(ms, 0);
    assert ms[0..] == ms;
  }

  /** The second loop: insertions under a running offset. */
  method InsertMissing(messages: seq<Message>, missing: seq<Site>) returns (updated: seq<Message>)
    requires missing == Unanswered(SitesFrom(messages, 0), AnsweredIds(messages))
    ensures updated == Backfill(messages)
  {
    hide RowsFrom, SitesFrom, Unanswered, Fill, AnsweredIds, Interleave, Matches, Ascending, BlockReady, EndOf,
         Synthetic;
    hide InsertAt;
    ghost var answered := AnsweredIds(messages);
    ghost var rows := RowsFrom(messages, 0, answered);
    SitesMatch(messages, 0, answered);
    SitesAreOrdered(messages, 0, answered);
    assert forall k, l :: 0 <= k <= l < |missing| ==> missing[k].0 <= missing[l].0;
    RowsAscend(messages, 0, answered);
    InterleaveNothing(messages, 0);
    updated := messages;
    MatchedLength(messages, missing, rows);
    for k := 0 to |missing|
      invariant updated == Interleave(messages, 0, rows[..k]) && |updated| == |messages| + k
      invariant k > 0 ==> missing[k - 1].0 < |messages| && BlockReady(messages, updated, missing[k - 1].0, k)
      invariant k == 0 ==> updated == messages
    {
      MatchedAt(messages, missing, rows, k);
      var (assistant, call) := missing[k];
      var at := FindInsertion(messages, updated, assistant, k, if k == 0 then None else Some(missing[k - 1].0));
      PrefixAscends(rows, k, |messages|);
      InterleaveLast(messages, 0, rows[..k], rows[k]);
      assert rows[..k + 1] == rows[..k] + [rows[k]];
      BlockStaysReady(messages, updated, assistant, k, Synthetic(call));
      InsertGrows(updated, at, Synthetic(call));
      updated := InsertAt(updated, at, Synthetic(call));
    }
    assert rows[..|rows|] == rows && messages[0..] == messages;
    GapsAreFill(messages, 0, answered);
  }

  lemma InsertGrows(s: seq<Message>, at: nat, m: Message)
    requires at <= |s|
    ensures |InsertAt(s, at, m)| == |s| + 1
  {
  }

  lemma MatchedLength(ms: seq<Message>, sites: seq<Site>, rows: seq<(nat, Message)>)
    requires Matches(ms, sites, rows)
    ensures |sites| == |rows|
  {
  }

  lemma MatchedAt(ms: seq<Message>, sites: seq<Site>, rows: seq<(nat, Message)>, k: nat)
    requires Matches(ms, sites, rows) && k < |sites|
    ensures |sites| == |rows|
    ensures sites[k].0 < |ms| && ms[sites[k].0].role == Assistant && sites[k].1.Call?
    ensures rows[k] == (EndOf(ms, sites[k].0), Synthetic(sites[k].1)) && Synthetic(sites[k].1).role == Tool
  {
  }

  lemma PrefixAscends(rows: seq<(nat, Message)>, k: nat, hi: nat)
    requires k < |rows| && Ascending(rows, 0, hi)
    ensures Ascending(rows[..k], 0, rows[k].0) && rows[k].0 <= hi
  {
  }

  /** After `k` insertions, the last of them behind `a`'s block: the block is all tools, what follows is untouched. */
  predicate BlockReady(ms: seq<Message>, updated: seq<Message>, a: nat, k: nat)
    requires a < |ms|
  {
    var end := EndOf(ms, a);
    && |updated| == |ms| + k
    && updated[end + k..] == ms[end..]
    && forall p :: a + 1 + k <= p < end + k ==> updated[p].role == Tool
  }

  /** The place for the next row: from just behind the assistant, past the results. */
  method FindInsertion(ghost ms: seq<Message>, updated: seq<Message>, assistant: nat, offset: nat,
                       ghost last: Option<nat>)
    returns (at: nat)
    requires assistant < |ms| && ms[assistant].role == Assistant
    requires last.None? ==> offset == 0 && updated == ms
    requires last.Some? ==> last.value <= assistant && BlockReady(ms, updated, last.value, offset)
    ensures at == EndOf(ms, assistant) + offset && at <= |updated|
    ensures BlockReady(ms, updated, assistant, offset)
  {
    BlockIsReady(ms, updated, assistant, offset, last);
    BlockStops(ms, updated, assistant, offset);
    ghost var end := EndOf(ms, assistant);
    hide EndOf;
    at := assistant + 1 + offset;
    while at < |updated| && updated[at].role == Tool
      invariant assistant + 1 + offset <= at <= end + offset
    {
      at := at + 1;
    }
  }

  lemma BlockStops(ms: seq<Message>, updated: seq<Message>, a: nat, k: nat)
    requires a < |ms| && BlockReady(ms, updated, a, k)
    ensures EndOf(ms, a) + k <= |updated|
    ensures EndOf(ms, a) + k < |updated| ==> updated[EndOf(ms, a) + k].role != Tool
  {
    EndOfIsBlockEnd(ms, a);
    var end := EndOf(ms, a);
    hide EndOf;
    if end + k < |updated| { assert updated[end + k] == updated[end + k..][0] == ms[end..][0]; }
  }

  lemma BlockIsReady(ms: seq<Message>, updated: seq<Message>, assistant: nat, offset: nat, last: Option<nat>)
    requires assistant < |ms| && ms[assistant].role == Assistant
    requires last.None? ==> offset == 0 && updated == ms
    requires last.Some? ==> last.value <= assistant && BlockReady(ms, updated, last.value, offset)
    ensures BlockReady(ms, updated, assistant, offset)
  {
    EndOfIsBlockEnd(ms, assistant);
    hide EndOf;
    if last.Some? && last.value < assistant {
      EndsAreOrdered(ms, last.value, assistant);
      LaterBlockIsReady(ms, updated, EndOf(ms, last.value), EndOf(ms, assistant), assistant, offset);
    }
  }

  lemma LaterBlockIsReady(ms: seq<Message>, updated: seq<Message>, e: nat, end: nat, assistant: nat, offset: nat)
    requires e <= assistant < end <= |ms| && e + offset <= |updated| && updated[e + offset..] == ms[e..]
    ensures |updated| == |ms| + offset && updated[end + offset..] == ms[end..]
    ensures forall p :: assistant <= p < end ==> updated[p + offset] == ms[p]
  {
    assert forall p :: e <= p < |ms| ==> ms[p] == ms[e..][p - e] == updated[p + offset];
  }

  lemma BlockStaysReady(ms: seq<Message>, updated: seq<Message>, assistant: nat, k: nat, row: Message)
    requires assistant < |ms| && BlockReady(ms, updated, assistant, k) && row.role == Tool
    ensures BlockReady(ms, InsertAt(updated, EndOf(ms, assistant) + k, row), assistant, k + 1)
  {
    var end := EndOf(ms, assistant);
    hide EndOf;
    var next := InsertAt(updated, end + k, row);
    assert next[end + k + 1..] == updated[end + k..];
  }
}
