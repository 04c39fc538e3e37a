/** The repair passes as the loops they are, proved to compute the functions of `Transcript`. */
module RepairPasses {
  import opened Wrappers
  import opened Strings
  import opened RuntimeContext
  import opened Transcript

  /** A pass copies the list only once something changes; `None` stands for no copy yet. */
  function Current(updated: Option<seq<Message>>, prefix: seq<Message>): seq<Message> {
    if updated.Some? then updated.value else prefix
  }

  lemma StripPlaceholdersStep(ms: seq<Message>, i: nat)
    requires i < |ms|
    ensures StripPlaceholders(ms[..i + 1]) ==
            StripPlaceholders(ms[..i]) + if StrayPlaceholder(ms[i]) then [] else [ms[i]]
    ensures ms[..i + 1] == ms[..i] + [ms[i]]
  {
    hide StrayPlaceholder;
    assert ms[..i + 1][..i] == ms[..i];
  }

  method StripPlaceholderMessages(messages: seq<Message>) returns (r: seq<Message>)
    ensures r == StripPlaceholders(messages)
  {
    var updated: Option<seq<Message>> := None;
    for i := 0 to |messages|
      invariant Current(updated, messages[..i]) == StripPlaceholders(messages[..i])
    {
      StripPlaceholdersStep(messages, i);
      var msg := messages[i];
      hide StripPlaceholders, PlaceholderText;
      if msg.role == Assistant && PlaceholderText(msg) && msg.calls == [] {
        if updated.None? {
          updated := Some(messages[..i]);
        }
      } else if updated.Some? {
        updated := Some(updated.value + [msg]);
      }
    }
    assert messages[..|messages|] == messages;
    r := if updated.None? then messages else updated.value;
  }

  lemma StripMalformedStep(ms: seq<Message>, i: nat)
    requires i < |ms|
    ensures StripMalformed(ms[..i + 1]) == StripMalformed(ms[..i]) + WellFormed(ms[i])
    ensures ms[i].calls == [] ==> ValidCalls(ms[i].calls) == []
    ensures ms[..i + 1] == ms[..i] + [ms[i]]
  {
    assert ms[..i + 1][..i] == ms[..i];
  }

  method StripMalformedToolCalls(messages: seq<Message>) returns (r: seq<Message>)
    ensures r == StripMalformed(messages)
  {
    var updated: Option<seq<Message>> := None;
    for i := 0 to |messages|
      invariant Current(updated, messages[..i]) == StripMalformed(messages[..i])
    {
      StripMalformedStep(messages, i);
      var msg := messages[i];
      hide StripMalformed, ValidCalls;
      if msg.role != Assistant || msg.calls == [] || |ValidCalls(msg.calls)| == |msg.calls| {
        if updated.Some? {
          updated := Some(updated.value + [msg]);
        }
      } else {
        if updated.None? {
          updated := Some(messages[..i]);
        }
        var repaired := msg.(calls := ValidCalls(msg.calls));
        if repaired.calls != [] || Truthy(repaired.content) {
          updated := Some(updated.value + [repaired]);
        }
      }
    }
    assert messages[..|messages|] == messages;
    r := if updated.None? then messages else updated.value;
  }

  lemma DropOrphansStep(ms: seq<Message>, i: nat)
    requires i < |ms|
    ensures Declared(ms[..i + 1]) == Declared(ms[..i]) + DeclaredBy(ms[i])
    ensures Fulfilled(ms[..i + 1]) ==
              Fulfilled(ms[..i]) + if ms[i].role == Tool && Kept(ms, i) then {ms[i].callId} else {}
    ensures DropOrphans(ms[..i + 1]) == DropOrphans(ms[..i]) + if Kept(ms, i) then [ms[i]] else []
    ensures ms[i].role == Tool ==> DeclaredBy(ms[i]) == {}
    ensures ms[..i + 1] == ms[..i] + [ms[i]]
  {
    assert ms[..i + 1][..i] == ms[..i];
    assert Kept(ms[..i + 1], i) == Kept(ms, i);
  }

  method DropOrphanToolResults(messages: seq<Message>) returns (r: seq<Message>)
    ensures r == DropOrphans(messages)
  {
    var declared: set<string> := {};
    var fulfilled: set<string> := {};
    var updated: Option<seq<Message>> := None;
    for i := 0 to |messages|
      invariant declared == Declared(messages[..i]) && fulfilled == Fulfilled(messages[..i])
      invariant Current(updated, messages[..i]) == DropOrphans(messages[..i])
    {
      DropOrphansStep(messages, i);
      var msg := messages[i];
      hide DropOrphans, Fulfilled, Declared, DeclaredBy;
      declared := declared + DeclaredBy(msg);
      if msg.role == Tool && (msg.callId == "" || msg.callId !in declared || msg.callId in fulfilled) {
        if updated.None? {
          updated := Some(messages[..i]);
        }
      } else {
        if msg.role == Tool {
          fulfilled := fulfilled + {msg.callId};
        }
        if updated.Some? {
          updated := Some(updated.value + [msg]);
        }
      }
    }
    assert messages[..|messages|] == messages;
    r := if updated.None? then messages else updated.value;
  }

  lemma BudgetStep(ms: seq<Message>, i: nat, normalize: Normalizer, fallback: nat -> string)
    requires i < |ms|
    ensures Budgeted(ms[..i + 1], normalize, fallback) ==
            Budgeted(ms[..i], normalize, fallback) + [BudgetedMessage(ms[i], i, normalize, fallback)]
    ensures ms[i + 1..] == ms[i..][1..]
  {
    hide BudgetedMessage;
    assert ms[..i + 1][..i] == ms[..i];
  }

  method ApplyToolResultBudget(messages: seq<Message>, normalize: Normalizer, fallback: nat -> string)
    returns (r: seq<Message>)
    ensures r == Budgeted(messages, normalize, fallback)
    ensures |r| == |messages|
    ensures forall i :: 0 <= i < |messages| ==>
              var m := messages[i];
              r[i] == if m.role != Tool then m
                      else m.(content := normalize(if m.callId == "" then fallback(i) else m.callId,
                                                   if m.name == "" then "tool" else m.name, m.content))
  {
    r := messages;
    for i := 0 to |messages|
      invariant |r| == |messages| && r[..i] == Budgeted(messages[..i], normalize, fallback) && r[i..] == messages[i..]
    {
      BudgetStep(messages, i, normalize, fallback);
      var message := messages[i];
      assert r[i] == r[i..][0] == message;
      hide Budgeted;
      if message.role == Tool {
        var normalized := normalize(if message.callId != "" then message.callId else fallback(i),
                                    if message.name != "" then message.name else "tool", message.content);
        if normalized != message.content {
          r := r[i := message.(content := normalized)];
        }
      }
      assert r[i] == BudgetedMessage(message, i, normalize, fallback);
      assert r[..i + 1] == r[..i] + [r[i]] && r[i + 1..] == messages[i + 1..];
    }
    assert messages[..|messages|] == messages && r[..|r|] == r;
    BudgetedAt(messages, normalize, fallback);
  }

  lemma {:induction false} BudgetedAt(ms: seq<Message>, normalize: Normalizer, fallback: nat -> string)
    ensures var r := Budgeted(ms, normalize, fallback);
            && |r| == |ms|
            && forall i :: 0 <= i < |ms| ==>
                 var m := ms[i];
                 r[i] == if m.role != Tool then m
                         else m.(content := normalize(if m.callId == "" then fallback(i) else m.callId,
                                                      if m.name == "" then "tool" else m.name, m.content))
  {
    if ms != [] { BudgetedAt(ms[..|ms| - 1], normalize, fallback); }
  }
}
