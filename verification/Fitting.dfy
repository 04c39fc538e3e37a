/** Cutting a request down to the model's window. */
module Fitting {
  import opened Wrappers
  import opened RuntimeContext
  import opened Transcript
  import opened Pairing
  import opened RepairTheorems
  import opened RepairPasses
  import opened BackfillPass

  const SNIP_SAFETY_BUFFER := 1024

  datatype Config = Config(window: Option<int>, maxTokens: Option<int>, providerMaxTokens: Option<int>)

  datatype WindowExceeded = WindowExceeded(estimated: nat, budget: nat)

  /** The estimated tokens of one message, and of a whole request. */
  type Cost = Message -> nat
  type Estimate = seq<Message> -> nat

  predicate Configured(config: Config) {
    config.window.Some? && config.window.value != 0
  }

  function InputBudget(config: Config): nat {
    if !Configured(config) then 0
    else
      var output := if config.maxTokens.Some? then config.maxTokens.value
                    else if config.providerMaxTokens.Some? then config.providerMaxTokens.value else 4096;
      var budget := config.window.value - output - SNIP_SAFETY_BUFFER;
      if budget > 0 then budget else 0
  }

  /**
   A prompt of `used` tokens, the output to come and the safety margin of 1024 fit in the window, and the
   output and the margin alone leave some of it.
   */
  predicate FitsWindow(config: Config, used: nat)
    requires Configured(config)
  {
    var output := match (config.maxTokens, config.providerMaxTokens)
                  case (Some(own), _) => own
                  case (None, Some(providers)) => providers
                  case (None, None) => 4096;
    used + output + 1024 <= config.window.value && output + 1024 < config.window.value
  }

  /** The input budget is exactly what fits. */
  lemma BudgetIsWhatFits(config: Config, used: nat)
    requires Configured(config)
    ensures InputBudget(config) > 0 && used <= InputBudget(config) <==> FitsWindow(config, used)
  {
  }

  // ----- reference definitions ----------------------------------------------------------

  function SystemOf(ms: seq<Message>): seq<Message> {
    if ms == [] then [] else (if ms[0].role == System then [ms[0]] else []) + SystemOf(ms[1..])
  }

  function NonSystem(ms: seq<Message>): seq<Message> {
    if ms == [] then [] else (if ms[0].role != System then [ms[0]] else []) + NonSystem(ms[1..])
  }

  function Total(ms: seq<Message>, cost: Cost): nat {
    if ms == [] then 0 else cost(ms[0]) + Total(ms[1..], cost)
  }

  /** Where the longest affordable tail of `ms` that ends behind `i` begins; `i` itself always belongs to it. */
  function TailStart(ms: seq<Message>, i: nat, budget: nat, cost: Cost): (start: nat)
    requires i < |ms|
    ensures start <= i
  {
    if i > 0 && Total(ms[i - 1..], cost) <= budget then TailStart(ms, i - 1, budget, cost) else i
  }

  /** The tail from the first, or the last, user message on; empty if there is none. */
  function FromFirstUser(ms: seq<Message>): seq<Message> {
    if ms == [] || ms[0].role == User then ms else FromFirstUser(ms[1..])
  }

  function FromLastUser(ms: seq<Message>): seq<Message> {
    if ms == [] then [] else
      var rest := FromLastUser(ms[1..]);
      if rest != [] then rest else if ms[0].role == User then ms else []
  }

  /** Every result that names an id is declared inside the tail. */
  ghost predicate LegalFrom(ms: seq<Message>, start: nat)
    requires start <= |ms|
  {
    forall i :: start <= i < |ms| && ms[i].role == Tool && ms[i].callId != "" ==> ms[i].callId in Declared(ms[start..i])
  }

  ghost predicate IsLegalStart(ms: seq<Message>, start: nat) {
    start <= |ms| && LegalFrom(ms, start) && forall s: nat :: s < start ==> !LegalFrom(ms, s)
  }

  // ----- the loops -----------------------------------------------------------------------

  function Reverse(ms: seq<Message>): seq<Message> {
    seq(|ms|, i requires 0 <= i < |ms| => ms[|ms| - 1 - i])
  }

  /** The greedy loop: from the end, messages are kept while they fit, the last one in any case. */
  method KeepTail(ms: seq<Message>, budget: nat, cost: Cost) returns (kept: seq<Message>)
    requires ms != []
    ensures kept == ms[TailStart(ms, |ms| - 1, budget, cost)..]
  {
    kept := [];
    var tokens := 0;
    var i := |ms|;
    assert ms[i..] == [];
    while i > 0
      invariant 0 <= i <= |ms| && |kept| == |ms| - i && Reverse(kept) == ms[i..]
      invariant tokens == Total(ms[i..], cost)
      invariant i < |ms| ==> TailStart(ms, i, budget, cost) == TailStart(ms, |ms| - 1, budget, cost)
    {
      var message := ms[i - 1];
      assert ms[i - 1..] == [message] + ms[i..];
      if kept != [] && tokens + cost(message) > budget {
        break;
      }
      assert Reverse(kept + [message]) == [message] + Reverse(kept);
      kept := kept + [message];
      tokens := tokens + cost(message);
      i := i - 1;
    }
    kept := Reverse(kept);
  }

  method UserTail(ms: seq<Message>, last: bool) returns (r: seq<Message>)
    ensures r == if last then FromLastUser(ms) else FromFirstUser(ms)
  {
    var i := if last then |ms| else 0;
    if last {
      assert ms[i..] == [];
      while i > 0
        invariant 0 <= i <= |ms| && FromLastUser(ms[i..]) == []
      {
        i := i - 1;
        assert ms[i..][1..] == ms[i + 1..];
        if ms[i].role == User {
          LastUserIsLast(ms, i);
          return ms[i..];
        }
      }
      assert ms[0..] == ms;
    } else {
      while i < |ms|
        invariant 0 <= i <= |ms| && FromFirstUser(ms[i..]) == FromFirstUser(ms)
      {
        assert ms[i..][1..] == ms[i + 1..];
        if ms[i].role == User {
          return ms[i..];
        }
        i := i + 1;
      }
    }
    r := [];
  }

  lemma {:induction false} LastUserIsLast(ms: seq<Message>, i: nat)
    requires i < |ms| && ms[i].role == User && FromLastUser(ms[i + 1..]) == []
    ensures FromLastUser(ms) == ms[i..]
  {
    if i == 0 {
      assert ms[0..] == ms;
    } else {
      assert ms[1..][i - 1] == ms[i] && ms[1..][i..] == ms[i + 1..] && ms[1..][i - 1..] == ms[i..];
      LastUserIsLast(ms[1..], i - 1);
    }
  }

  lemma DeclaredStep(ms: seq<Message>, start: nat, i: nat)
    requires start <= i < |ms|
    ensures Declared(ms[start..i + 1]) == Declared(ms[start..i]) + DeclaredBy(ms[i])
  {
    assert ms[start..i + 1][..i - start] == ms[start..i];
  }

  lemma {:induction false} DeclaredShrinks(ms: seq<Message>, a: nat, b: nat, i: nat)
    requires a <= b <= i <= |ms|
    ensures Declared(ms[b..i]) <= Declared(ms[a..i])
  {
    assert ms[a..i] == ms[a..b] + ms[b..i];
    DeclaredAppend(ms[a..b], ms[b..i]);
  }

  /** An undeclared result makes every start up to it illegal. */
  method FindLegalMessageStart(ms: seq<Message>) returns (start: nat)
    ensures IsLegalStart(ms, start)
  {
    start := 0;
    var declared: set<string> := {};
    for i := 0 to |ms|
      invariant start <= i && declared == Declared(ms[start..i])
      invariant forall k :: start <= k < i && ms[k].role == Tool && ms[k].callId != "" ==>
                  ms[k].callId in Declared(ms[start..k])
      invariant forall s: nat :: s < start ==> !LegalFrom(ms, s)
    {
      DeclaredStep(ms, start, i);
      var msg := ms[i];
      if msg.role == Assistant {
        declared := declared + DeclaredBy(msg);
      } else if msg.role == Tool && msg.callId != "" && msg.callId !in declared {
        forall s: nat | start <= s <= i ensures !LegalFrom(ms, s) { DeclaredShrinks(ms, start, s, i); }
        start := i + 1;
        declared := {};
      }
    }
  }

  // ----- fitting -----------------------------------------------------------------------------

  /** The tail of the non-system messages that is sent, before its start is made legal. */
  function UserAligned(kept: seq<Message>, all: seq<Message>): seq<Message> {
    if FromFirstUser(kept) != [] then FromFirstUser(kept)
    else if FromLastUser(all) != [] then FromLastUser(all)
    else kept
  }

  function RemainingBudget(config: Config, ms: seq<Message>, cost: Cost, estimate: Estimate): nat {
    var system := SystemOf(ms);
    var fixed := if Total(system, cost) >= estimate(system) then Total(system, cost) else estimate(system);
    if InputBudget(config) >= fixed then InputBudget(config) - fixed else 0
  }

  predicate Snips(config: Config, ms: seq<Message>, estimate: Estimate, force: bool) {
    ms != [] && InputBudget(config) > 0 && (force || estimate(ms) > InputBudget(config)) && NonSystem(ms) != []
  }

  /** `tail` is what `snip_history` keeps of the messages that are not the system's. */
  ghost predicate IsSnippedTail(config: Config, ms: seq<Message>, cost: Cost, estimate: Estimate, tail: seq<Message>)
    requires NonSystem(ms) != []
  {
    var all := NonSystem(ms);
    var kept := all[TailStart(all, |all| - 1, RemainingBudget(config, ms, cost, estimate), cost)..];
    var aligned := UserAligned(kept, all);
    exists start: nat :: IsLegalStart(aligned, start) && tail == aligned[start..]
  }

  method SnipHistory(config: Config, messages: seq<Message>, cost: Cost, estimate: Estimate, force: bool)
    returns (r: seq<Message>)
    ensures !Snips(config, messages, estimate, force) ==> r == messages
    ensures Snips(config, messages, estimate, force) ==>
              exists tail :: IsSnippedTail(config, messages, cost, estimate, tail) && r == SystemOf(messages) + tail
    ensures Snips(config, messages, estimate, force) <==>
              && Configured(config) && FitsWindow(config, 0)
              && (force || !FitsWindow(config, estimate(messages)))
              && exists m :: m in messages && m.role != System
  {
    SnipsIff(config, messages, estimate, force);
    hide RemainingBudget, TailStart, FromFirstUser, FromLastUser, IsLegalStart, IsSnippedTail;
    if messages == [] || !Configured(config) {
      return messages;
    }
    var budget := InputBudget(config);
    if budget <= 0 {
      return messages;
    }
    if !force && estimate(messages) <= budget {
      return messages;
    }
    var system, nonSystem := SystemOf(messages), NonSystem(messages);
    if nonSystem == [] {
      return messages;
    }
    var kept := KeepTail(nonSystem, RemainingBudget(config, messages, cost, estimate), cost);
    var aligned := UserTail(kept, false);
    if aligned == [] {
      aligned := UserTail(nonSystem, true);
      if aligned == [] {
        aligned := kept;
      }
    }
    var start := FindLegalMessageStart(aligned);
    r := system + aligned[start..];
    TailIsSnipped(config, messages, cost, estimate, aligned, start);
  }

  lemma SnipsIff(config: Config, ms: seq<Message>, estimate: Estimate, force: bool)
    ensures Snips(config, ms, estimate, force) <==>
              && Configured(config) && FitsWindow(config, 0)
              && (force || !FitsWindow(config, estimate(ms)))
              && exists m :: m in ms && m.role != System
  {
    SystemComesFirst(ms);
    if NonSystem(ms) != [] {
      OthersAreMembers(ms);
      assert NonSystem(ms)[0] in ms;
    }
    if Configured(config) {
      BudgetIsWhatFits(config, 0);
      BudgetIsWhatFits(config, estimate(ms));
    }
  }

  lemma {:induction false} OthersAreMembers(ms: seq<Message>)
    ensures forall m :: m in NonSystem(ms) ==> m in ms && m.role != System
  {
    if ms != [] { OthersAreMembers(ms[1..]); }
  }

  lemma TailIsSnipped(config: Config, ms: seq<Message>, cost: Cost, estimate: Estimate, aligned: seq<Message>,
                      start: nat)
    requires NonSystem(ms) != [] && IsLegalStart(aligned, start)
    requires var all := NonSystem(ms);
             var kept := all[TailStart(all, |all| - 1, RemainingBudget(config, ms, cost, estimate), cost)..];
             aligned == UserAligned(kept, all)
    ensures IsSnippedTail(config, ms, cost, estimate, aligned[start..])
  {
    hide RemainingBudget, TailStart, FromFirstUser, FromLastUser, NonSystem, UserAligned, LegalFrom;
  }

  method EnsureRequestFits(config: Config, messages: seq<Message>, estimate: Estimate)
    returns (r: Result<seq<Message>, WindowExceeded>)
    ensures r.Success? <==> !Configured(config) || FitsWindow(config, estimate(messages))
    ensures r.Success? ==> r.value == messages
    ensures r.Failure? ==> r.error == WindowExceeded(estimate(messages), InputBudget(config))
  {
    if !Configured(config) {
      return Success(messages);
    }
    var budget := InputBudget(config);
    var estimated := estimate(messages);
    if budget > 0 && estimated <= budget {
      return Success(messages);
    }
    r := Failure(WindowExceeded(estimated, budget));
  }

  /** What a fitted request consists of. */
  ghost predicate IsFitted(config: Config, ms: seq<Message>, cost: Cost, estimate: Estimate, out: seq<Message>) {
    exists tail ::
      && (if NonSystem(ms) == [] then tail == [] else IsSnippedTail(config, ms, cost, estimate, tail))
      && out == SystemOf(ms) + Backfill(DropOrphans(tail))
  }

  method FitToBudget(config: Config, messages: seq<Message>, cost: Cost, estimate: Estimate)
    returns (r: Result<seq<Message>, WindowExceeded>)
    ensures r.Success? && Configured(config) ==>
              && FitsWindow(config, estimate(r.value))
              && IsFitted(config, messages, cost, estimate, r.value)
    ensures r.Success? && !Configured(config) ==> r.value == Backfill(DropOrphans(messages))
    ensures r.Failure? ==> Configured(config) && !FitsWindow(config, r.error.estimated)
                           && r.error.budget == InputBudget(config)
  {
    var snipped := SnipHistory(config, messages, cost, estimate, true);
    var updated := DropOrphanToolResults(snipped);
    updated := BackfillMissingToolResults(updated);
    r := EnsureRequestFits(config, updated, estimate);
    if r.Success? && Configured(config) {
      SystemComesFirst(messages);
      if NonSystem(messages) == [] {
        assert SystemOf(messages) + [] == messages;
        RepairsBehindSystem(SystemOf(messages), []);
      } else {
        ghost var tail :| IsSnippedTail(config, messages, cost, estimate, tail) && snipped == SystemOf(messages) + tail;
        RepairsBehindSystem(SystemOf(messages), tail);
      }
    }
  }

  // ----- what the reference definitions mean ---------------------------------------------------

  lemma {:induction false} SystemComesFirst(ms: seq<Message>)
    ensures forall m :: m in SystemOf(ms) ==> m.role == System
    ensures forall m :: m in NonSystem(ms) ==> m.role != System
    ensures NonSystem(ms) == [] ==> SystemOf(ms) == ms
  {
    if ms != [] { SystemComesFirst(ms[1..]); }
  }

  lemma {:induction false} SystemAppend(a: seq<Message>, b: seq<Message>)
    ensures SystemOf(a + b) == SystemOf(a) + SystemOf(b)
  {
    if a == [] { assert a + b == b; } else {
      assert (a + b)[1..] == a[1..] + b && (a + b)[0] == a[0];
      SystemAppend(a[1..], b);
    }
  }

  lemma {:induction false} NonSystemAppend(a: seq<Message>, b: seq<Message>)
    ensures NonSystem(a + b) == NonSystem(a) + NonSystem(b)
  {
    if a == [] { assert a + b == b; } else {
      assert (a + b)[1..] == a[1..] + b && (a + b)[0] == a[0];
      NonSystemAppend(a[1..], b);
    }
  }

  lemma {:induction false} OnlySystem(ms: seq<Message>)
    requires forall m :: m in ms ==> m.role == System
    ensures SystemOf(ms) == ms && NonSystem(ms) == []
  {
    if ms != [] { OnlySystem(ms[1..]); }
  }

  lemma {:induction false} NoSystem(ms: seq<Message>)
    requires forall m :: m in ms ==> m.role != System
    ensures SystemOf(ms) == [] && NonSystem(ms) == ms
  {
    if ms != [] { NoSystem(ms[1..]); }
  }

  lemma DropGrows(ms: seq<Message>, m: Message)
    ensures var kept := m.role == Tool ==> m.callId != "" && m.callId in Declared(ms) && m.callId !in Fulfilled(ms);
            && Declared(ms + [m]) == Declared(ms) + DeclaredBy(m)
            && Fulfilled(ms + [m]) == Fulfilled(ms) + (if m.role == Tool && kept then {m.callId} else {})
            && DropOrphans(ms + [m]) == DropOrphans(ms) + if kept then [m] else []
  {
    hide DeclaredBy;
    assert (ms + [m])[..|ms|] == ms;
    assert Kept(ms + [m], |ms|) == (m.role == Tool ==>
                                      m.callId != "" && m.callId in Declared(ms) && m.callId !in Fulfilled(ms));
  }

  /** System messages in front do not take part in the pairing passes. */
  lemma {:induction false} DropsBehindSystem(system: seq<Message>, ms: seq<Message>)
    requires forall m :: m in system ==> m.role == System
    ensures DropOrphans(system + ms) == system + DropOrphans(ms)
    ensures Fulfilled(system + ms) == Fulfilled(ms) && Declared(system + ms) == Declared(ms)
    decreases |ms|
  {
    hide DropOrphans, Fulfilled, Declared, DeclaredBy, Kept;
    if ms != [] {
      var k := |ms| - 1;
      DropsBehindSystem(system, ms[..k]);
      assert ms == ms[..k] + [ms[k]];
      Associative(system, ms[..k], [ms[k]]);
      DropGrows(ms[..k], ms[k]);
      DropGrows(system + ms[..k], ms[k]);
    } else {
      assert system + [] == system;
      OnlySystemIsKept(system);
      OnlySystemIsKept([]);
    }
  }

  lemma {:induction false} OnlySystemIsKept(system: seq<Message>)
    requires forall m :: m in system ==> m.role == System
    ensures DropOrphans(system) == system && Fulfilled(system) == {} && Declared(system) == {}
  {
    if system != [] {
      var k := |system| - 1;
      assert system[k] in system && system == system[..k] + [system[k]];
      OnlySystemIsKept(system[..k]);
    }
  }

  lemma {:induction false} FillsBehindSystem(system: seq<Message>, ms: seq<Message>, answered: set<string>)
    requires forall m :: m in system ==> m.role == System
    ensures Fill(system + ms, answered) == system + Fill(ms, answered)
  {
    if system == [] { assert system + ms == ms; } else {
      assert (system + ms)[1..] == system[1..] + ms;
      FillsBehindSystem(system[1..], ms, answered);
    }
  }

  lemma RepairsBehindSystem(system: seq<Message>, ms: seq<Message>)
    requires forall m :: m in system ==> m.role == System
    ensures Backfill(DropOrphans(system + ms)) == system + Backfill(DropOrphans(ms))
  {
    DropsBehindSystem(system, ms);
    var d := DropOrphans(ms);
    AnsweredAppend(system, d);
    assert AnsweredIds(system + d) == AnsweredIds(d);
    FillsBehindSystem(system, d, AnsweredIds(d));
  }

  lemma {:induction false} TotalGrows(ms: seq<Message>, j: nat, i: nat, cost: Cost)
    requires j <= i <= |ms|
    decreases i - j
    ensures Total(ms[j..], cost) >= Total(ms[i..], cost)
  {
    if j < i {
      assert ms[j..][1..] == ms[j + 1..];
      TotalGrows(ms, j + 1, i, cost);
    }
  }

  lemma TotalOneByOne(ms: seq<Message>, m: Message, cost: Cost)
    ensures Total([], cost) == 0 && Total(ms + [m], cost) == Total(ms, cost) + cost(m)
  {
    TotalAppend(ms, [m], cost);
    assert [m][1..] == [];
  }

  lemma {:induction false} TotalAppend(a: seq<Message>, b: seq<Message>, cost: Cost)
    ensures Total(a + b, cost) == Total(a, cost) + Total(b, cost)
  {
    if a == [] { assert a + b == b; } else {
      assert (a + b)[1..] == a[1..] + b;
      TotalAppend(a[1..], b, cost);
    }
  }

  /** A message goes to the system's or to the others, behind those before it. */
  lemma PartsOneByOne(ms: seq<Message>, m: Message)
    ensures SystemOf([]) == NonSystem([]) == []
    ensures SystemOf(ms + [m]) == SystemOf(ms) + if m.role == System then [m] else []
    ensures NonSystem(ms + [m]) == NonSystem(ms) + if m.role == System then [] else [m]
  {
    SystemAppend(ms, [m]);
    NonSystemAppend(ms, [m]);
    assert [m][1..] == [];
    assert SystemOf([m]) == if m.role == System then [m] else [];
    assert NonSystem([m]) == if m.role == System then [] else [m];
  }

  /** The greedy tail is the longest one within the budget, or just the last message. */
  lemma {:induction false} TailIsLongest(ms: seq<Message>, i: nat, budget: nat, cost: Cost)
    requires i < |ms|
    ensures var start := TailStart(ms, i, budget, cost);
            && (start == i || Total(ms[start..], cost) <= budget)
            && forall j: nat :: j < start ==> Total(ms[j..], cost) > budget
  {
    hide Total;
    if i > 0 && Total(ms[i - 1..], cost) <= budget {
      TailIsLongest(ms, i - 1, budget, cost);
    } else {
      forall j: nat | j < i ensures Total(ms[j..], cost) > budget { TotalGrows(ms, j, i - 1, cost); }
    }
  }

  ghost predicate IsSuffix(tail: seq<Message>, ms: seq<Message>) {
    |tail| <= |ms| && tail == ms[|ms| - |tail|..]
  }

  lemma SuffixOfRest(tail: seq<Message>, ms: seq<Message>)
    requires ms != [] && IsSuffix(tail, ms[1..])
    ensures IsSuffix(tail, ms)
  {
    assert ms[|ms| - |tail|..] == ms[1..][|ms| - 1 - |tail|..];
  }

  lemma {:induction false} UserTailsAreSuffixes(ms: seq<Message>)
    ensures IsSuffix(FromFirstUser(ms), ms) && IsSuffix(FromLastUser(ms), ms)
    ensures FromFirstUser(ms) != [] ==> FromFirstUser(ms)[0].role == User
    ensures FromLastUser(ms) != [] ==> FromLastUser(ms)[0].role == User
    ensures FromFirstUser(ms) == [] <==> forall m :: m in ms ==> m.role != User
  {
    if ms != [] {
      UserTailsAreSuffixes(ms[1..]);
      assert forall m :: m in ms <==> m == ms[0] || m in ms[1..];
      SuffixOfRest(FromFirstUser(ms[1..]), ms);
      SuffixOfRest(FromLastUser(ms[1..]), ms);
    }
  }

  lemma SuffixOfSuffix(a: seq<Message>, b: seq<Message>, c: seq<Message>)
    requires IsSuffix(a, b) && IsSuffix(b, c)
    ensures IsSuffix(a, c)
  {
  }

  lemma SnippedTailIsSuffix(config: Config, ms: seq<Message>, cost: Cost, estimate: Estimate, tail: seq<Message>)
    requires NonSystem(ms) != [] && IsSnippedTail(config, ms, cost, estimate, tail)
    ensures IsSuffix(tail, NonSystem(ms)) && LegalFrom(tail, 0)
  {
    hide RemainingBudget, TailStart, FromFirstUser, FromLastUser, Declared, NonSystem, LegalFrom, IsSuffix, UserAligned;
    var all := NonSystem(ms);
    var kept := all[TailStart(all, |all| - 1, RemainingBudget(config, ms, cost, estimate), cost)..];
    var aligned := UserAligned(kept, all);
    AlignedIsSuffix(kept, all);
    var start: nat :| IsLegalStart(aligned, start) && tail == aligned[start..];
    LegalTail(aligned, start, all);
  }

  lemma AlignedIsSuffix(kept: seq<Message>, all: seq<Message>)
    requires |kept| <= |all| && kept == all[|all| - |kept|..]
    ensures IsSuffix(UserAligned(kept, all), all)
  {
    hide FromFirstUser, FromLastUser;
    UserTailsAreSuffixes(kept);
    UserTailsAreSuffixes(all);
    SuffixOfSuffix(FromFirstUser(kept), kept, all);
  }

  lemma LegalTail(aligned: seq<Message>, start: nat, all: seq<Message>)
    requires start <= |aligned| && LegalFrom(aligned, start) && IsSuffix(aligned, all)
    ensures IsSuffix(aligned[start..], all) && LegalFrom(aligned[start..], 0)
  {
    hide Declared;
    var tail := aligned[start..];
    SuffixOfSuffix(tail, aligned, all);
    forall i | 0 <= i < |tail| && tail[i].role == Tool && tail[i].callId != ""
      ensures tail[i].callId in Declared(tail[0..i])
    {
      assert tail[0..i] == aligned[start..start + i];
    }
  }

  // What a snipped tail is, said by positions in the list of the messages that are not the system's.

  /** Behind the system's messages, the ones from `j` on fit in the window by either measure, or they cost nothing. */
  predicate Affordable(config: Config, ms: seq<Message>, cost: Cost, estimate: Estimate, j: nat)
    requires Configured(config) && j <= |NonSystem(ms)|
  {
    var tokens := Total(NonSystem(ms)[j..], cost);
    || tokens == 0
    || (FitsWindow(config, Total(SystemOf(ms), cost) + tokens) && FitsWindow(config, estimate(SystemOf(ms)) + tokens))
  }

  /** `from` begins the longest affordable tail, which has the last message in any case. */
  ghost predicate LongestAffordable(config: Config, ms: seq<Message>, cost: Cost, estimate: Estimate, from: nat)
    requires Configured(config)
  {
    var n := |NonSystem(ms)|;
    && from < n && (from == n - 1 || Affordable(config, ms, cost, estimate, from))
    && forall j: nat :: j < from ==> !Affordable(config, ms, cost, estimate, j)
  }

  ghost predicate NoUserIn(all: seq<Message>, a: nat, b: nat) {
    forall i :: a <= i < b && i < |all| ==> all[i].role != User
  }

  /** The first user message from `from` on; or the last one at all; or `from`, if there is none. */
  ghost predicate UserStart(all: seq<Message>, from: nat, start: nat) {
    && start < |all|
    && ((from <= start && all[start].role == User && NoUserIn(all, from, start))
        || (NoUserIn(all, from, |all|) && all[start].role == User && NoUserIn(all, start + 1, |all|))
        || (NoUserIn(all, 0, |all|) && start == from))
  }

  /** Every snipped tail begins at the first legal position behind the user's start of the longest affordable tail. */
  lemma SnippedTailIs(config: Config, ms: seq<Message>, cost: Cost, estimate: Estimate, tail: seq<Message>)
    returns (from: nat, start: nat, legal: nat)
    requires Configured(config) && FitsWindow(config, 0)
    requires NonSystem(ms) != [] && IsSnippedTail(config, ms, cost, estimate, tail)
    ensures LongestAffordable(config, ms, cost, estimate, from)
    ensures UserStart(NonSystem(ms), from, start)
    ensures start <= legal <= |NonSystem(ms)| && tail == NonSystem(ms)[legal..]
    ensures LegalFrom(NonSystem(ms), legal)
    ensures forall s: nat :: start <= s < legal ==> !LegalFrom(NonSystem(ms), s)
  {
    var all := NonSystem(ms);
    from := TailStart(all, |all| - 1, RemainingBudget(config, ms, cost, estimate), cost);
    GreedyIsLongest(config, ms, cost, estimate);
    hide RemainingBudget, TailStart, FromFirstUser, FromLastUser, LegalFrom, NonSystem, SystemOf;
    start := AlignedStart(all, from);
    var aligned := all[start..];
    var k: nat :| IsLegalStart(aligned, k) && tail == aligned[k..];
    legal := start + k;
    forall s: nat | start <= s <= legal ensures LegalFrom(all, s) <==> LegalFrom(aligned, s - start) {
      LegalInTail(all, start, s);
    }
  }

  lemma GreedyIsLongest(config: Config, ms: seq<Message>, cost: Cost, estimate: Estimate)
    requires Configured(config) && FitsWindow(config, 0) && NonSystem(ms) != []
    ensures var all := NonSystem(ms);
            LongestAffordable(config, ms, cost, estimate,
                              TailStart(all, |all| - 1, RemainingBudget(config, ms, cost, estimate), cost))
  {
    var (all, budget) := (NonSystem(ms), RemainingBudget(config, ms, cost, estimate));
    TailIsLongest(all, |all| - 1, budget, cost);
    hide Total, NonSystem, SystemOf;
    forall j: nat | j <= |all|
      ensures Affordable(config, ms, cost, estimate, j) <==> Total(all[j..], cost) <= budget
    {
    }
  }

  lemma AlignedStart(all: seq<Message>, from: nat) returns (start: nat)
    requires from < |all|
    ensures UserStart(all, from, start) && UserAligned(all[from..], all) == all[start..]
  {
    var kept := all[from..];
    FirstUserPosition(kept);
    LastUserPosition(all);
    var (first, last) := (FromFirstUser(kept), FromLastUser(all));
    hide FromFirstUser, FromLastUser;
    if first != [] {
      start := |all| - |first|;
      assert forall i :: from <= i < |all| ==> all[i] == kept[i - from];
    } else {
      assert NoUserIn(all, from, |all|) by {
        assert forall i :: from <= i < |all| ==> all[i] == kept[i - from];
      }
      start := if last != [] then |all| - |last| else from;
    }
  }

  lemma {:induction false} FirstUserPosition(ms: seq<Message>)
    ensures var first := FromFirstUser(ms);
            && IsSuffix(first, ms) && NoUserIn(ms, 0, |ms| - |first|) && (first != [] ==> first[0].role == User)
  {
    if ms != [] && ms[0].role != User {
      FirstUserPosition(ms[1..]);
      SuffixOfRest(FromFirstUser(ms[1..]), ms);
      assert forall i :: 1 <= i < |ms| ==> ms[i] == ms[1..][i - 1];
    }
  }

  lemma {:induction false} LastUserPosition(ms: seq<Message>)
    ensures var last := FromLastUser(ms);
            && IsSuffix(last, ms) && NoUserIn(ms, |ms| - |last| + 1, |ms|)
            && if last != [] then last[0].role == User else NoUserIn(ms, 0, |ms|)
  {
    if ms != [] {
      LastUserPosition(ms[1..]);
      SuffixOfRest(FromLastUser(ms[1..]), ms);
      assert forall i :: 1 <= i < |ms| ==> ms[i] == ms[1..][i - 1];
    }
  }

  lemma LegalInTail(all: seq<Message>, start: nat, s: nat)
    requires start <= s <= |all|
    ensures LegalFrom(all, s) <==> LegalFrom(all[start..], s - start)
  {
    hide Declared;
    var tail := all[start..];
    forall i | s <= i < |all| ensures all[s..i] == tail[s - start..i - start] && all[i] == tail[i - start] {
    }
    assert forall i :: s - start <= i < |tail| ==> tail[i] == all[i + start];
  }

  predicate IsSubsequence(a: seq<Message>, b: seq<Message>)
    decreases |b|
  {
    if a == [] then true
    else b != [] && if a[|a| - 1] == b[|b| - 1] then IsSubsequence(a[..|a| - 1], b[..|b| - 1])
                    else IsSubsequence(a, b[..|b| - 1])
  }

  lemma {:induction false} SubsequenceOfLonger(a: seq<Message>, b: seq<Message>, m: Message)
    requires IsSubsequence(a, b)
    ensures IsSubsequence(a, b + [m])
    decreases |b|, 1
  {
    if a != [] {
      assert (b + [m])[..|b|] == b;
      if a[|a| - 1] == m { SubsequenceOfShorter(a, b); }
    }
  }

  lemma {:induction false} SubsequenceOfShorter(a: seq<Message>, b: seq<Message>)
    requires a != [] && IsSubsequence(a, b)
    ensures IsSubsequence(a[..|a| - 1], b)
    decreases |b|, 0
  {
    var m := b[|b| - 1];
    assert b == b[..|b| - 1] + [m];
    if a[|a| - 1] != m { SubsequenceOfShorter(a, b[..|b| - 1]); }
    SubsequenceOfLonger(a[..|a| - 1], b[..|b| - 1], m);
  }

  lemma {:induction false} DropIsSubsequence(ms: seq<Message>)
    ensures IsSubsequence(DropOrphans(ms), ms)
    decreases |ms|
  {
    if ms != [] {
      var k := |ms| - 1;
      DropIsSubsequence(ms[..k]);
      assert ms == ms[..k] + [ms[k]];
      if Kept(ms, k) {
        assert DropOrphans(ms)[..|DropOrphans(ms)| - 1] == DropOrphans(ms[..k]);
      } else {
        assert DropOrphans(ms) == DropOrphans(ms[..k]);
        SubsequenceOfLonger(DropOrphans(ms[..k]), ms[..k], ms[k]);
      }
    }
  }

  lemma {:induction false} FillAddsNoSystem(ms: seq<Message>, answered: set<string>)
    requires forall m :: m in ms ==> m.role != System
    ensures forall m :: m in Fill(ms, answered) ==> m.role != System
  {
    FillKeepsOthers(ms, answered);
    assert forall m :: m in Fill(ms, answered) && m.role != Tool ==> m in ms;
  }

  /**
   A fitted request starts with all system messages in order; what follows is, without the synthetic results, a
   subsequence of a suffix of the other messages; and every result in it follows a call that declares its id.
   */
  lemma FittingIsSound(config: Config, ms: seq<Message>, cost: Cost, estimate: Estimate, out: seq<Message>)
    requires IsFitted(config, ms, cost, estimate, out)
    ensures SystemOf(out) == SystemOf(ms)
    ensures exists tail :: IsSuffix(tail, NonSystem(ms)) && ComesFrom(NonSystem(out), tail)
    ensures ResultsAreDeclared(out)
  {
    hide IsSnippedTail, Fill, DropOrphans, SystemOf, NonSystem, ResultsAreDeclared, IsSuffix, ComesFrom;
    var tail :| (if NonSystem(ms) == [] then tail == [] else IsSnippedTail(config, ms, cost, estimate, tail))
                && out == SystemOf(ms) + Backfill(DropOrphans(tail));
    if NonSystem(ms) == [] { NothingIsSuffix(NonSystem(ms)); } else {
      SnippedTailIsSuffix(config, ms, cost, estimate, tail);
    }
    SystemComesFirst(ms);
    MembersOfSuffix(tail, NonSystem(ms));
    PartsOfFitted(SystemOf(ms), tail);
  }

  lemma NothingIsSuffix(ms: seq<Message>)
    ensures IsSuffix([], ms)
  {
  }

  lemma MembersOfSuffix(tail: seq<Message>, ms: seq<Message>)
    requires IsSuffix(tail, ms)
    ensures forall m :: m in tail ==> m in ms
  {
  }

  lemma PartsOfFitted(system: seq<Message>, tail: seq<Message>)
    requires (forall m :: m in system ==> m.role == System) && (forall m :: m in tail ==> m.role != System)
    ensures var out := system + Backfill(DropOrphans(tail));
            SystemOf(out) == system && ComesFrom(NonSystem(out), tail) && ResultsAreDeclared(out)
  {
    hide Fill, DropOrphans, SystemOf, NonSystem, AllDeclared, AnsweredIds, ComesFrom, Declared, ResultsAreDeclared;
    var rest := Backfill(DropOrphans(tail));
    RestComesFrom(tail);
    OnlySystem(system);
    NoSystem(rest);
    SystemAppend(system, rest);
    NonSystemAppend(system, rest);
    assert system + [] == system && [] + rest == rest;
    SystemDeclaresNothing(system);
    AllDeclaredAppend({}, system, rest);
    assert {} + Declared(system) == {};
    DeclaredByPosition(system + rest);
  }

  /** Without the synthetic results, `rest` is a subsequence of `tail`. */
  ghost predicate ComesFrom(rest: seq<Message>, tail: seq<Message>) {
    IsSubsequence(WithoutSynthetic(rest, AnsweredIds(DropOrphans(tail))), tail)
  }

  lemma RestComesFrom(tail: seq<Message>)
    requires forall m :: m in tail ==> m.role != System
    ensures var rest := Backfill(DropOrphans(tail));
            ComesFrom(rest, tail) && AllDeclared({}, rest) && forall m :: m in rest ==> m.role != System
  {
    hide Fill, DropOrphans, IsSubsequence, AllDeclared, AnsweredIds, WithoutSynthetic;
    var d := DropOrphans(tail);
    DroppedIsDeclared(tail);
    FillIsDeclared({}, d, AnsweredIds(d));
    BackfillIsUndone(d);
    DropIsSubsequence(tail);
    DropKeepsOthers(tail);
    assert forall m :: m in d && m.role != Tool ==> m in tail;
    FillAddsNoSystem(d, AnsweredIds(d));
  }

  lemma {:induction false} SystemDeclaresNothing(ms: seq<Message>)
    requires forall m :: m in ms ==> m.role == System
    ensures Declared(ms) == {} && AllDeclared({}, ms)
  {
    if ms != [] {
      SystemDeclaresNothing(ms[1..]);
      assert ms == [ms[0]] + ms[1..];
      DeclaredAppend([ms[0]], ms[1..]);
      assert [ms[0]][..0] == [];
      assert {} + DeclaredBy(ms[0]) == {};
    }
  }
}
