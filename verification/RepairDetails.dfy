/** What each repair pass does to one message more, told by the message's own fields and the messages before it. */
module RepairDetails {
  import opened Wrappers
  import opened Strings
  import opened RuntimeContext
  import opened Transcript
  import opened Pairing
  import opened RepairPasses
  import opened RepairTheorems

  // ----- placeholders and malformed calls ---------------------------------------------------

  /** An assistant message that says nothing but that another was left out, and calls nothing, is removed. */
  lemma StripPlaceholdersOneMore(ms: seq<Message>, m: Message)
    ensures StripPlaceholders([]) == []
    ensures StripPlaceholders(ms + [m]) == StripPlaceholders(ms) +
              if m.role == Assistant && m.calls == [] && m.content.Text?
                 && Strip(m.content.text) == "[Previous assistant message omitted.]" then [] else [m]
  {
    hide Strip;
    assert (ms + [m])[..|ms|] == ms;
  }

  /** A call that can be run: the nested mapping's name, or the call's own where there is none, is a non-empty text. */
  predicate Usable(call: Call) {
    match call
    case Junk => false
    case Call(_, Some(nested), _) => nested.Name? && nested.text != ""
    case Call(_, None, own) => own.Name? && own.text != ""
  }

  lemma {:induction false} ValidCallsOneMore(calls: seq<Call>, call: Call)
    ensures ValidCalls(calls + [call]) == ValidCalls(calls) + if Usable(call) then [call] else []
  {
    assert ValidCall(call) <==> Usable(call);
    hide ValidCall, Usable;
    var all := calls + [call];
    if calls == [] {
      assert all[0] == call && all[1..] == [];
    } else {
      assert all[0] == calls[0] && all[1..] == calls[1..] + [call];
      ValidCallsOneMore(calls[1..], call);
    }
  }

  predicate AllUsable(calls: seq<Call>) {
    forall c :: c in calls ==> Usable(c)
  }

  predicate NoneUsable(calls: seq<Call>) {
    forall c :: c in calls ==> !Usable(c)
  }

  lemma {:induction false} AllValidIff(calls: seq<Call>)
    ensures |ValidCalls(calls)| <= |calls|
    ensures |ValidCalls(calls)| == |calls| <==> AllUsable(calls)
    ensures ValidCalls(calls) == [] <==> NoneUsable(calls)
  {
    if calls != [] {
      var (first, rest) := (calls[0], calls[1..]);
      AllValidIff(rest);
      assert calls == [first] + rest;
      assert first in calls && forall c :: c in rest ==> c in calls;
      assert AllUsable(calls) <==> Usable(first) && AllUsable(rest);
      assert NoneUsable(calls) <==> !Usable(first) && NoneUsable(rest);
    }
  }

  /** A message with unusable calls keeps the others, in order; left without calls and content, it is removed. */
  lemma StripMalformedOneMore(ms: seq<Message>, m: Message)
    ensures StripMalformed([]) == []
    ensures var rest := m.(calls := ValidCalls(m.calls));
            StripMalformed(ms + [m]) == StripMalformed(ms) +
              if m.role != Assistant || AllUsable(m.calls) then [m]
              else if NoneUsable(m.calls) && m.content in {Absent, Text(""), Blocks([])} then []
              else [rest]
  {
    AllValidIff(m.calls);
    assert (ms + [m])[..|ms|] == ms;
  }

  lemma {:induction false} ValidCallsAreUsable(calls: seq<Call>)
    ensures AllUsable(ValidCalls(calls))
  {
    if calls != [] { ValidCallsAreUsable(calls[1..]); }
  }

  lemma {:induction false} StrippedCallsAreUsable(ms: seq<Message>)
    ensures forall m :: m in StripMalformed(ms) && m.role == Assistant ==> AllUsable(m.calls)
  {
    if ms != [] {
      hide ValidCalls, AllUsable;
      var m := ms[|ms| - 1];
      StrippedCallsAreUsable(ms[..|ms| - 1]);
      ValidCallsAreUsable(m.calls);
      AllValidIff(m.calls);
    }
  }

  /** In a repaired list every call of an assistant can be run. */
  lemma RepairedCallsAreUsable(ms: seq<Message>)
    ensures forall m :: m in Repair(ms) && m.role == Assistant ==> AllUsable(m.calls)
  {
    var stripped := StripMalformed(StripPlaceholders(ms));
    var dropped := DropOrphans(stripped);
    StrippedCallsAreUsable(StripPlaceholders(ms));
    DropKeepsOthers(stripped);
    FillKeepsOthers(dropped, AnsweredIds(dropped));
    hide AllUsable, Fill, DropOrphans, StripMalformed;
  }

  // ----- orphaned results ------------------------------------------------------------------

  /** An assistant message before position `i` has a call with this id. */
  ghost predicate DeclaredBefore(ms: seq<Message>, i: nat, id: string)
    requires i <= |ms|
  {
    id != "" && exists h :: 0 <= h < i && ms[h].role == Assistant && CallsAs(ms[h], id)
  }

  ghost predicate CallsAs(m: Message, id: string) {
    exists c :: c in m.calls && c.Call? && c.id == id
  }

  lemma {:induction false} DeclaredIff(ms: seq<Message>, i: nat, id: string)
    requires i <= |ms|
    ensures id in Declared(ms[..i]) <==> DeclaredBefore(ms, i, id)
  {
    if i > 0 {
      DeclaredIff(ms, i - 1, id);
      assert ms[..i][..i - 1] == ms[..i - 1];
      assert id in DeclaredBy(ms[i - 1]) <==> id != "" && ms[i - 1].role == Assistant && CallsAs(ms[i - 1], id);
    }
  }

  /** A result that follows a call with its id. */
  ghost predicate Answer(ms: seq<Message>, i: nat, id: string)
    requires i < |ms|
  {
    ms[i].role == Tool && ms[i].callId == id && DeclaredBefore(ms, i, id)
  }

  lemma {:induction false} FulfilledIff(ms: seq<Message>, i: nat, id: string)
    requires i <= |ms|
    ensures id in Fulfilled(ms[..i]) <==> exists j :: 0 <= j < i && Answer(ms, j, id)
  {
    if i > 0 {
      hide DeclaredBefore, Declared, Fulfilled, DropOrphans, DeclaredBy;
      var k := i - 1;
      FulfilledIff(ms, k, id);
      DeclaredIff(ms, k, ms[k].callId);
      DropOrphansStep(ms, k);
      if ms[k].role == Tool { KeptUnfolds(ms, k); }
      EmptyIsNotDeclared(ms, k);
      hide Kept;
      assert ms[..k + 1] == ms[..i];
      if Answer(ms, k, id) {
        assert id in Fulfilled(ms[..i]);
      } else {
        assert id in Fulfilled(ms[..i]) <==> id in Fulfilled(ms[..k]);
      }
    }
  }

  lemma KeptUnfolds(ms: seq<Message>, i: nat)
    requires i < |ms| && ms[i].role == Tool
    ensures Kept(ms, i) <==>
              ms[i].callId != "" && ms[i].callId in Declared(ms[..i]) && ms[i].callId !in Fulfilled(ms[..i])
  {
  }

  lemma EmptyIsNotDeclared(ms: seq<Message>, i: nat)
    requires i <= |ms|
    ensures !DeclaredBefore(ms, i, "")
  {
  }

  /** A result is kept exactly if it answers a call before it and no earlier result does; nothing else is removed. */
  lemma KeptIff(ms: seq<Message>, i: nat)
    requires i < |ms|
    ensures Kept(ms, i) <==>
              ms[i].role != Tool ||
              (Answer(ms, i, ms[i].callId) && forall j :: 0 <= j < i ==> !Answer(ms, j, ms[i].callId))
  {
    DeclaredIff(ms, i, ms[i].callId);
    FulfilledIff(ms, i, ms[i].callId);
    EmptyIsNotDeclared(ms, i);
  }

  /** What the drop pass keeps stands in order. */
  lemma DropOneMore(ms: seq<Message>, m: Message)
    ensures DropOrphans([]) == []
    ensures var all := ms + [m];
            DropOrphans(all) == DropOrphans(ms) +
              if m.role == Tool && !(Answer(all, |ms|, m.callId)
                                     && forall j :: 0 <= j < |ms| ==> !Answer(all, j, m.callId)) then [] else [m]
  {
    hide Answer, DeclaredBefore, Fulfilled, Declared, DeclaredBy, Kept;
    var all := ms + [m];
    assert all[..|ms|] == ms && all[..|ms| + 1] == all;
    KeptIff(all, |ms|);
    DropOrphansStep(all, |ms|);
  }

  // ----- missing results ---------------------------------------------------------------------

  /** The result made up for one call. */
  predicate StandsIn(row: Message, call: Call) {
    && call.Call?
    && row.role == Tool && row.callId == call.id && row.calls == [] && row.meta == None && !row.hidden
    && row.content == Text("[Tool result unavailable — call was interrupted or lost]")
    && match call.function_
       case Some(Name(text)) => row.name == text
       case Some(NotAString(repr)) => row.name == repr
       case _ => row.name == ""
  }

  /** A call with an id nobody answered gets one, behind those of the calls before it. */
  lemma {:induction false} RowsOneMore(calls: seq<Call>, call: Call, answered: set<string>)
    ensures SyntheticRows([], answered) == []
    ensures var (before, after) := (SyntheticRows(calls, answered), SyntheticRows(calls + [call], answered));
            if call.Call? && call.id != "" && call.id !in answered then
              |after| == |before| + 1 && after[..|before|] == before && StandsIn(after[|before|], call)
            else after == before
  {
    if calls == [] {
      assert [] + [call] == [call] && [call][1..] == [];
    } else {
      hide StandsIn, Synthetic;
      assert (calls + [call])[1..] == calls[1..] + [call];
      RowsOneMore(calls[1..], call, answered);
    }
  }

  lemma {:induction false} BlockGoesOn(block: seq<Message>, rest: seq<Message>)
    requires rest == [] || rest[0].role != Tool
    ensures ToolRun(block + rest) == ToolRun(block)
    ensures (forall m :: m in block ==> m.role == Tool) ==> ToolRun(block) == |block|
  {
    if block == [] {
      assert block + rest == rest;
    } else {
      assert (block + rest)[1..] == block[1..] + rest;
      BlockGoesOn(block[1..], rest);
    }
  }

  /** A message that is no result ends the block before it, so both sides are filled apart. */
  lemma {:induction false} FillSplits(before: seq<Message>, rest: seq<Message>, answered: set<string>)
    requires rest == [] || rest[0].role != Tool
    ensures Fill(before + rest, answered) == Fill(before, answered) + Fill(rest, answered)
    decreases |before|
  {
    hide SyntheticRows, Fill, ToolRun;
    FillUnfoldsOther(before, answered);
    FillUnfoldsOther(before + rest, answered);
    if before == [] {
      assert before + rest == rest;
    } else if before[0].role == Assistant {
      var all, run := before + rest, ToolRun(before[1..]);
      assert all[1..] == before[1..] + rest;
      BlockGoesOn(before[1..], rest);
      assert all[..run + 1] == before[..run + 1] && all[run + 1..] == before[run + 1..] + rest;
      FillSplits(before[run + 1..], rest, answered);
      FillUnfolds(before, answered);
      FillUnfolds(all, answered);
    } else {
      assert (before + rest)[1..] == before[1..] + rest;
      FillSplits(before[1..], rest, answered);
    }
  }

  lemma FillUnfoldsOther(ms: seq<Message>, answered: set<string>)
    ensures ms == [] ==> Fill(ms, answered) == []
    ensures ms != [] && ms[0].role != Assistant ==> Fill(ms, answered) == [ms[0]] + Fill(ms[1..], answered)
  {
    hide ToolRun, SyntheticRows;
  }

  /** The results made up for an assistant's calls stand at the end of its block of results, and nowhere else. */
  lemma FillEndsBlocks(before: seq<Message>, m: Message, block: seq<Message>, rest: seq<Message>,
                       answered: set<string>)
    requires m.role == Assistant && (forall x :: x in block ==> x.role == Tool)
    requires rest == [] || rest[0].role != Tool
    ensures Fill(before + ([m] + block + rest), answered) ==
            Fill(before, answered) + ([m] + block + SyntheticRows(m.calls, answered)) + Fill(rest, answered)
  {
    hide SyntheticRows;
    var head := [m] + block;
    FillSplits(before, head + rest, answered);
    FillSplits(head, rest, answered);
    BlockGoesOn(block, []);
    assert block + [] == block && head[1..] == block && head[..|block| + 1] == head && head[|block| + 1..] == [];
  }

  /** Other messages are left as they are. */
  lemma FillLeavesOthers(m: Message, rest: seq<Message>, answered: set<string>)
    requires m.role != Assistant
    ensures Fill([m] + rest, answered) == [m] + Fill(rest, answered) && Fill([], answered) == []
  {
    assert ([m] + rest)[1..] == rest;
  }
}
