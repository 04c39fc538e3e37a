/** Runs of the journal with its consumer: appends, crashes, session drops, compactions and overlapping Dream runs. */
module DreamRuns {
  import opened Wrappers
  import opened Journal

  /** A Dream run under way: the cursor it will move to, and the entries in its prompt. */
  datatype Batch = Batch(last: nat, entries: set<nat>)

  /**
   The files, the runs under way, and the history of the run: how many entries were appended, the highest cursor ever
   given out, the entries removed by session drops, those in completed Dream runs, and those that came late: their
   cursor was already passed by Dream, or by the batch of a run under way, when they were appended.
   */
  datatype Store = Store(file: seq<Line>, counter: Option<nat>, dream: nat, batches: map<nat, Batch>,
                         appended: nat, high: nat, dropped: set<nat>, consumed: set<nat>, late: set<nat>)

  const EMPTY := Store([], None, 0, map[], 0, 0, {}, {}, {})

  function EntryOf(line: Line): Option<nat> {
    if line.Object? then line.record.entry else None
  }

  function Entries(lines: seq<Line>): set<nat> {
    set line | line in lines && EntryOf(line).Some? :: EntryOf(line).value
  }

  datatype Action =
    | Append(session: Option<string>, gen: int, readable: bool)
    | AppendCrash(session: Option<string>, gen: int, readable: bool)
    | Foreign(line: Line)
    | Drop(key: string, onlyGen: Option<int>)
    | BeginDream(run: nat)
    | EndDream(run: nat, completed: bool, limit: int)
    | Compact(limit: int)

  predicate Enabled(s: Store, a: Action) {
    match a
    case Foreign(line) => !HasCursor(line) && EntryOf(line).None?
    case BeginDream(run) => run !in s.batches && DreamBatch(s.file, s.dream) != []
    case EndDream(run, _, _) => run in s.batches
    case _ => true
  }

  /** A cursor Dream has passed, or will pass when a run under way completes. */
  predicate Passed(cursor: nat, dream: nat, batches: map<nat, Batch>) {
    cursor <= dream || exists run :: run in batches && cursor <= batches[run].last
  }

  function AppendStep(s: Store, session: Option<string>, gen: int, readable: bool): Store {
    var cursor := NextCursor(s.file, s.counter, readable);
    s.(file := s.file + [Object(Record(Good(cursor), session, gen, true, Some(s.appended)))],
       counter := Some(cursor), appended := s.appended + 1,
       high := Max(s.high, cursor),
       late := s.late + if Passed(cursor, s.dream, s.batches) then {s.appended} else {})
  }

  function BeginStep(s: Store, run: nat): Store
    requires DreamBatch(s.file, s.dream) != []
  {
    var batch := DreamBatch(s.file, s.dream);
    var last := batch[|batch| - 1];
    s.(batches := s.batches[run := Batch(if HasCursor(last) then CursorOf(last) else 0, Entries(batch))])
  }

  function EndStep(s: Store, run: nat, completed: bool): Store
    requires run in s.batches
  {
    var after := s.(batches := s.batches - {run});
    if completed then
      after.(dream := s.batches[run].last, consumed := s.consumed + s.batches[run].entries)
    else after
  }

  function CompactStep(s: Store, limit: int): Store {
    s.(file := Compacted(s.file, s.dream, limit))
  }

  function DropStep(s: Store, key: string, gen: Option<int>): Store {
    var file := Journal.Dropped(s.file, key, gen);
    s.(file := file, dropped := s.dropped + (Entries(s.file) - Entries(file)))
  }

  function Step(s: Store, a: Action): Store
    requires Enabled(s, a)
  {
    match a
    case Append(session, gen, readable) => AppendStep(s, session, gen, readable)
    // The process dies after the record is written and before the counter is; runs under way die with it.
    case AppendCrash(session, gen, readable) =>
      AppendStep(s.(batches := map[]), session, gen, readable).(counter := s.counter)
    case Foreign(line) => s.(file := s.file + [line])
    case Drop(key, gen) => DropStep(s, key, gen)
    case BeginDream(run) => BeginStep(s, run)
    case EndDream(run, completed, limit) => CompactStep(EndStep(s, run, completed), limit)
    case Compact(limit) => CompactStep(s, limit)
  }

  function Run(s: Store, actions: seq<Action>): Option<Store> {
    if actions == [] then Some(s)
    else
      var before := Run(s, actions[..|actions| - 1]);
      if before.Some? && Enabled(before.value, actions[|actions| - 1])
      then Some(Step(before.value, actions[|actions| - 1])) else None
  }

  // ----- the file -------------------------------------------------------------------------------

  ghost predicate Bounded(file: seq<Line>, high: nat, appended: nat) {
    forall line :: line in file ==>
      && (HasCursor(line) ==> CursorOf(line) <= high)
      && (EntryOf(line).Some? ==> HasCursor(line) && EntryOf(line).value < appended)
  }

  ghost predicate FilesOk(s: Store) {
    && Increasing(s.file) && CursorsAreEntries(s.file) && Bounded(s.file, s.high, s.appended)
    && (s.counter.Some? ==> s.counter.value <= s.high) && s.dream <= s.high
    && (forall run :: run in s.batches ==> s.batches[run].last <= s.high)
    && NumbersOk(s)
  }

  /** What the history counts has been appended. */
  ghost predicate NumbersOk(s: Store) {
    && (forall n :: n in s.dropped || n in s.consumed || n in s.late ==> n < s.appended)
    && forall run, n :: run in s.batches && n in s.batches[run].entries ==> n < s.appended
  }

  /** The highest cursor the files still tell of. */
  function Known(s: Store): nat {
    Max(Counted(s.counter), ScanMax(s.file))
  }

  /** The next cursor is new exactly if the files still tell of the highest one; it is above all in the file anyway. */
  lemma CursorIsNewIff(s: Store, readable: bool)
    requires FilesOk(s)
    ensures NextCursor(s.file, s.counter, readable) == Known(s) + 1
    ensures Known(s) <= s.high
    ensures NextCursor(s.file, s.counter, readable) > s.high <==> Known(s) == s.high
  {
    NextCursorIsAboveAll(s.file, s.counter, readable);
    ScanMaxIsMax(s.file);
  }

  lemma AppendKeepsFiles(s: Store, session: Option<string>, gen: int, readable: bool)
    requires FilesOk(s)
    ensures FilesOk(AppendStep(s, session, gen, readable))
  {
    CursorIsNewIff(s, readable);
    ScanMaxIsMax(s.file);
    var cursor := NextCursor(s.file, s.counter, readable);
    OrderAppend(s.file, Object(Record(Good(cursor), session, gen, true, Some(s.appended))));
  }

  lemma CompactKeepsFiles(s: Store, limit: int)
    requires FilesOk(s)
    ensures FilesOk(CompactStep(s, limit))
  {
    CompactedIsPart(s.file, s.dream, limit);
    CompactedKeepsOrder(s.file, s.dream, limit);
  }

  lemma DropKeepsFiles(s: Store, key: string, gen: Option<int>)
    requires FilesOk(s)
    ensures FilesOk(DropStep(s, key, gen))
  {
    FilterIsPart(s.file, Staying(key, gen));
    FilterKeepsOrder(s.file, Staying(key, gen));
  }

  lemma BatchLast(s: Store)
    requires FilesOk(s) && DreamBatch(s.file, s.dream) != []
    ensures var batch := DreamBatch(s.file, s.dream);
            var last := batch[|batch| - 1];
            last in s.file && IsEntry(last) && CursorOf(last) <= s.high
    ensures forall line :: line in DreamBatch(s.file, s.dream) ==> line in s.file
  {
    FilterIsPart(s.file, Behind(s.dream));
    var batch := DreamBatch(s.file, s.dream);
    assert batch[|batch| - 1] in Unprocessed(s.file, s.dream);
    assert forall line :: line in batch ==> line in Unprocessed(s.file, s.dream);
  }

  lemma StepKeepsFiles(s: Store, a: Action)
    requires FilesOk(s) && Enabled(s, a)
    ensures FilesOk(Step(s, a))
  {
    match a
    case Append(session, gen, readable) => AppendKeepsFiles(s, session, gen, readable);
    case AppendCrash(session, gen, readable) => AppendKeepsFiles(s.(batches := map[]), session, gen, readable);
    case Foreign(line) => OrderAppend(s.file, line);
    case Drop(key, gen) => DropKeepsFiles(s, key, gen);
    case BeginDream(run) => BatchLast(s);
    case EndDream(run, completed, limit) => CompactKeepsFiles(EndStep(s, run, completed), limit);
    case Compact(limit) => CompactKeepsFiles(s, limit);
  }

  // ----- nothing is skipped ----------------------------------------------------------------------------

  predicate IsAt(line: Line, n: nat, above: int) {
    EntryOf(line) == Some(n) && HasCursor(line) && CursorOf(line) > above
  }

  /** The entry is in the file, and Dream has yet to read it. */
  ghost predicate Waiting(file: seq<Line>, dream: nat, n: nat) {
    exists line :: line in file && IsAt(line, n, dream)
  }

  ghost predicate Covered(s: Store, n: nat) {
    n in s.dropped || n in s.consumed || Waiting(s.file, s.dream, n)
  }

  /** Entries up to a cursor are among the given ones. */
  ghost predicate UpTo(file: seq<Line>, cursor: nat, entries: set<nat>) {
    forall line :: line in file && EntryOf(line).Some? && HasCursor(line) && CursorOf(line) <= cursor ==>
      EntryOf(line).value in entries
  }

  ghost predicate Accounted(s: Store) {
    && (forall n: nat :: n < s.appended && n !in s.late ==> Covered(s, n))
    && UpTo(s.file, s.dream, s.consumed + s.late)
    && forall run :: run in s.batches ==>
         UpTo(s.file, s.batches[run].last, s.batches[run].entries + s.consumed + s.late)
  }

  ghost predicate StoreOk(s: Store) {
    FilesOk(s) && Accounted(s)
  }

  lemma AppendKeepsAccount(s: Store, session: Option<string>, gen: int, readable: bool)
    requires FilesOk(s) && Accounted(s)
    ensures Accounted(AppendStep(s, session, gen, readable))
  {
    var s' := AppendStep(s, session, gen, readable);
    var line := s'.file[|s.file|];
    assert forall other :: other in s.file ==> other in s'.file;
    forall n: nat | n < s'.appended && n !in s'.late ensures Covered(s', n) {
      if n == s.appended {
        assert line in s'.file && IsAt(line, n, s.dream);
      } else {
        assert Covered(s, n);
      }
    }
    forall run | run in s.batches
      ensures UpTo(s'.file, s.batches[run].last, s.batches[run].entries + s.consumed + s'.late)
    {
      assert UpTo(s.file, s.batches[run].last, s.batches[run].entries + s.consumed + s.late);
    }
  }

  lemma ForeignKeepsAccount(s: Store, line: Line)
    requires FilesOk(s) && Accounted(s) && EntryOf(line).None?
    ensures Accounted(s.(file := s.file + [line]))
  {
    var s' := s.(file := s.file + [line]);
    assert forall other :: other in s.file ==> other in s'.file;
    forall n: nat | n < s.appended && n !in s.late ensures Covered(s', n) {
      assert Covered(s, n);
    }
  }

  lemma CompactKeepsAccount(s: Store, limit: int)
    requires FilesOk(s) && Accounted(s)
    ensures Accounted(CompactStep(s, limit))
  {
    var s' := CompactStep(s, limit);
    CompactedIsPart(s.file, s.dream, limit);
    forall n: nat | n < s.appended && n !in s.late ensures Covered(s', n) {
      assert Covered(s, n);
    }
  }

  lemma DropKeepsAccount(s: Store, key: string, gen: Option<int>)
    requires FilesOk(s) && Accounted(s)
    ensures Accounted(DropStep(s, key, gen))
  {
    var s' := DropStep(s, key, gen);
    FilterIsPart(s.file, Staying(key, gen));
    forall n: nat | n < s.appended && n !in s.late && n !in s'.dropped && n !in s.consumed
      ensures Waiting(s'.file, s.dream, n)
    {
      assert Covered(s, n);
      var line :| line in s.file && IsAt(line, n, s.dream);
      assert n in Entries(s.file);
      var kept :| kept in s'.file && EntryOf(kept) == Some(n);
      assert IsAt(kept, n, s.dream);
    }
  }

  lemma BeginKeepsAccount(s: Store, run: nat)
    requires FilesOk(s) && Accounted(s) && Enabled(s, BeginDream(run))
    ensures Accounted(BeginStep(s, run))
  {
    var s' := BeginStep(s, run);
    var batch := DreamBatch(s.file, s.dream);
    BatchLast(s);
    forall line | line in s.file && EntryOf(line).Some? && HasCursor(line) && CursorOf(line) <= s'.batches[run].last
      ensures EntryOf(line).value in s'.batches[run].entries + s.consumed + s.late
    {
      if CursorOf(line) > s.dream { BatchHasAllUpToLast(s.file, s.dream, line); }
    }
    assert UpTo(s.file, s'.batches[run].last, s'.batches[run].entries + s.consumed + s.late);
    forall n: nat | n < s.appended && n !in s.late ensures Covered(s', n) {
      assert Covered(s, n);
    }
  }

  lemma EndKeepsAccount(s: Store, run: nat, completed: bool)
    requires FilesOk(s) && Accounted(s) && run in s.batches
    ensures Accounted(EndStep(s, run, completed)) && FilesOk(EndStep(s, run, completed))
  {
    var s' := EndStep(s, run, completed);
    assert UpTo(s.file, s.batches[run].last, s.batches[run].entries + s.consumed + s.late);
    forall n: nat | n < s.appended && n !in s.late && n !in s'.dropped && n !in s'.consumed
      ensures Waiting(s'.file, s'.dream, n)
    {
      assert Covered(s, n);
      var line :| line in s.file && IsAt(line, n, s.dream);
      assert IsAt(line, n, s'.dream);
    }
  }

  lemma StepKeepsAccount(s: Store, a: Action)
    requires FilesOk(s) && Accounted(s) && Enabled(s, a)
    ensures Accounted(Step(s, a))
  {
    hide Accounted, FilesOk, DropStep, BeginStep, CompactStep, EndStep, AppendStep;
    match a
    case Append(session, gen, readable) => AppendKeepsAccount(s, session, gen, readable);
    case AppendCrash(session, gen, readable) =>
      ProcessDies(s);
      AppendKeepsAccount(s.(batches := map[]), session, gen, readable);
      CounterKeepsAccount(AppendStep(s.(batches := map[]), session, gen, readable), s.counter);
    case Foreign(line) => ForeignKeepsAccount(s, line);
    case Drop(key, gen) => DropKeepsAccount(s, key, gen);
    case BeginDream(run) => BeginKeepsAccount(s, run);
    case EndDream(run, completed, limit) =>
      EndKeepsAccount(s, run, completed);
      CompactKeepsAccount(EndStep(s, run, completed), limit);
    case Compact(limit) => CompactKeepsAccount(s, limit);
  }

  lemma ProcessDies(s: Store)
    requires FilesOk(s) && Accounted(s)
    ensures FilesOk(s.(batches := map[])) && Accounted(s.(batches := map[]))
  {
    assert forall n :: Covered(s, n) ==> Covered(s.(batches := map[]), n);
  }

  lemma CounterKeepsAccount(s: Store, counter: Option<nat>)
    requires Accounted(s)
    ensures Accounted(s.(counter := counter))
  {
    assert forall n :: Covered(s, n) ==> Covered(s.(counter := counter), n);
  }

  lemma {:induction false} RunKeepsStore(s: Store, actions: seq<Action>)
    requires StoreOk(s) && Run(s, actions).Some?
    ensures StoreOk(Run(s, actions).value)
    ensures s.appended <= Run(s, actions).value.appended
    ensures forall n :: n < s.appended && n !in s.late ==> n !in Run(s, actions).value.late
  {
    hide FilesOk, Accounted, Enabled, Step;
    if actions != [] {
      var k := |actions| - 1;
      RunKeepsStore(s, actions[..k]);
      var before := Run(s, actions[..k]).value;
      StepKeepsFiles(before, actions[k]);
      StepKeepsAccount(before, actions[k]);
      LatenessIsSettled(before, actions[k]);
    }
  }

  /** Whether an entry came late is settled when it is appended. */
  lemma LatenessIsSettled(s: Store, a: Action)
    requires Enabled(s, a)
    ensures s.appended <= Step(s, a).appended
    ensures forall n :: n < s.appended ==> (n in Step(s, a).late <==> n in s.late)
  {
  }

  ghost predicate Reachable(s: Store) {
    exists actions :: Run(EMPTY, actions) == Some(s)
  }

  lemma ReachableIsOk(s: Store)
    requires Reachable(s)
    ensures StoreOk(s)
  {
    var actions :| Run(EMPTY, actions) == Some(s);
    assert StoreOk(EMPTY);
    RunKeepsStore(EMPTY, actions);
  }

  /** In every run, crashes included, cursors in the file increase and the next one is above them and the counter. */
  lemma CursorsIncrease(s: Store, readable: bool)
    requires Reachable(s)
    ensures Increasing(s.file)
    ensures NextCursor(s.file, s.counter, readable) == Known(s) + 1
    ensures forall line :: line in s.file && HasCursor(line) ==>
              CursorOf(line) < NextCursor(s.file, s.counter, readable)
  {
    ReachableIsOk(s);
    CursorIsNewIff(s, readable);
    ScanMaxIsMax(s.file);
  }

  /** In every run, each entry that did not come late was dropped, consumed, or still waits for Dream. */
  lemma DreamSkipsNothing(s: Store, n: nat)
    requires Reachable(s) && n < s.appended && n !in s.late
    ensures Covered(s, n)
  {
    ReachableIsOk(s);
  }

  /**
   Whatever happens after an append, the entry is never skipped, if and only if its cursor is above Dream's and above
   the last cursor of every run under way. Which is to say: counter and file tell of a cursor at least as high as these.
   */
  lemma CoveredForeverIff(s: Store, session: Option<string>, gen: int, readable: bool)
    requires Reachable(s)
    ensures var (after, cursor) := (AppendStep(s, session, gen, readable), NextCursor(s.file, s.counter, readable));
            && (AlwaysCovered(after, s.appended)
                <==> cursor > s.dream && forall run :: run in s.batches ==> cursor > s.batches[run].last)
            && (AlwaysCovered(after, s.appended)
                <==> Known(s) >= s.dream && forall run :: run in s.batches ==> Known(s) >= s.batches[run].last)
  {
    var after, cursor := AppendStep(s, session, gen, readable), NextCursor(s.file, s.counter, readable);
    ReachableIsOk(s);
    CursorIsNewIff(s, readable);
    AppendKeepsFiles(s, session, gen, readable);
    AppendKeepsAccount(s, session, gen, readable);
    if !Passed(cursor, s.dream, s.batches) {
      forall actions | Run(after, actions).Some? ensures Covered(Run(after, actions).value, s.appended) {
        RunKeepsStore(after, actions);
      }
    } else if cursor <= s.dream {
      PassedIsNotCovered(s, session, gen, readable);
      assert Run(after, []) == Some(after);
    } else {
      var run :| run in s.batches && cursor <= s.batches[run].last;
      PassedWhenRunEnds(s, session, gen, readable, run);
    }
  }

  /** The entry is covered now and at the end of every continuation. */
  ghost predicate AlwaysCovered(s: Store, n: nat) {
    forall actions :: Run(s, actions).Some? ==> Covered(Run(s, actions).value, n)
  }

  lemma PassedIsNotCovered(s: Store, session: Option<string>, gen: int, readable: bool)
    requires FilesOk(s) && NextCursor(s.file, s.counter, readable) <= s.dream
    ensures !Covered(AppendStep(s, session, gen, readable), s.appended)
  {
  }

  lemma PassedWhenRunEnds(s: Store, session: Option<string>, gen: int, readable: bool, run: nat)
    requires FilesOk(s) && run in s.batches && NextCursor(s.file, s.counter, readable) <= s.batches[run].last
    ensures !AlwaysCovered(AppendStep(s, session, gen, readable), s.appended)
  {
    var after := AppendStep(s, session, gen, readable);
    var ended := EndStep(after, run, true);
    assert ended.file == after.file && ended.dream == s.batches[run].last;
    CompactedIsPart(ended.file, ended.dream, 0);
    assert Run(after, []) == Some(after) && [EndDream(run, true, 0)][..0] == [];
    assert Run(after, [EndDream(run, true, 0)]) == Some(CompactStep(ended, 0));
    assert !Covered(CompactStep(ended, 0), s.appended);
  }

  // ----- when cursors are new -----------------------------------------------------------------------------

  /** The counter is at the highest cursor, as it is unless a crash kept it from being written. */
  ghost predicate CounterIsCurrent(s: Store) {
    s.late == {} && s.high == Counted(s.counter)
  }

  lemma StepKeepsCounter(s: Store, a: Action)
    requires FilesOk(s) && CounterIsCurrent(s) && Enabled(s, a) && !a.AppendCrash?
    ensures CounterIsCurrent(Step(s, a))
  {
    if a.Append? { CursorIsNewIff(s, a.readable); }
  }

  /** Without a crash between record and counter no cursor is used twice and no entry comes late. */
  lemma {:induction false} NoCrashNothingLate(actions: seq<Action>)
    requires Run(EMPTY, actions).Some? && forall a :: a in actions ==> !a.AppendCrash?
    ensures CounterIsCurrent(Run(EMPTY, actions).value)
  {
    hide FilesOk, Accounted, Enabled, Step, CounterIsCurrent;
    if actions == [] {
      assert CounterIsCurrent(EMPTY) by { EmptyIsCurrent(); }
    } else {
      var k := |actions| - 1;
      NoCrashNothingLate(actions[..k]);
      assert Reachable(Run(EMPTY, actions[..k]).value);
      ReachableIsOk(Run(EMPTY, actions[..k]).value);
      StepKeepsCounter(Run(EMPTY, actions[..k]).value, actions[k]);
    }
  }

  lemma EmptyIsCurrent()
    ensures CounterIsCurrent(EMPTY)
  {
  }

  /** The next cursor was given out before, or is below one that was, exactly when counter and file lost the highest. */
  lemma AppendReusesIff(s: Store, readable: bool)
    requires Reachable(s)
    ensures NextCursor(s.file, s.counter, readable) <= s.high <==>
              && 0 < s.high && (s.counter.Some? ==> s.counter.value < s.high)
              && forall line :: line in s.file && HasCursor(line) ==> CursorOf(line) < s.high
  {
    ReachableIsOk(s);
    CursorIsNewIff(s, readable);
    ScanMaxIsMax(s.file);
  }

  // ----- a run in which Dream skips an entry ------------------------------------------------------------------

  lemma {:induction false} RunOn(actions: seq<Action>, a: Action)
    requires Run(EMPTY, actions).Some? && Enabled(Run(EMPTY, actions).value, a)
    ensures Run(EMPTY, actions + [a]) == Some(Step(Run(EMPTY, actions).value, a))
  {
    assert (actions + [a])[..|actions|] == actions;
  }

  function Written(cursor: nat, entry: nat): Line {
    Object(Record(Good(cursor), Some("s"), 0, true, Some(entry)))
  }

  lemma OneEntry()
    ensures DreamBatch([Written(1, 0)], 0) == [Written(1, 0)] && Entries([Written(1, 0)]) == {0}
    ensures Journal.Dropped([Written(1, 0)], "s", None) == []
  {
    assert [Written(1, 0)][..0] == [];
    assert Filter([Written(1, 0)][..0], Behind(0)) == [] && Filter([Written(1, 0)][..0], Staying("s", None)) == [];
    assert EntryOf(Written(1, 0)) == Some(0);
  }

  const CRASHED := Store([Written(1, 0)], None, 0, map[], 1, 1, {}, {}, {})
  const DREAMT := CRASHED.(dream := 1, consumed := {0})
  const CLEARED := DREAMT.(file := [], dropped := {0})
  const SKIPPED := CLEARED.(file := [Written(1, 1)], counter := Some(1), appended := 2, late := {1})

  lemma CrashAndDream()
    ensures Run(EMPTY, [AppendCrash(Some("s"), 0, true)] + [BeginDream(0)] + [EndDream(0, true, 0)]) == Some(DREAMT)
  {
    var run := [AppendCrash(Some("s"), 0, true)];
    assert Run(EMPTY, []) == Some(EMPTY) && [] + run == run;
    assert Step(EMPTY, AppendCrash(Some("s"), 0, true)) == CRASHED;
    RunOn([], AppendCrash(Some("s"), 0, true));
    OneEntry();
    var begun := Step(CRASHED, BeginDream(0));
    assert begun == CRASHED.(batches := map[0 := Batch(1, {0})]);
    assert Step(begun, EndDream(0, true, 0)) == DREAMT;
    hide Step, Enabled, Run;
    RunOn(run, BeginDream(0));
    RunOn(run + [BeginDream(0)], EndDream(0, true, 0));
  }

  /**
   After a crash between record and counter, a completed Dream run and a drop of the session, the next append is given
   the cursor Dream has passed: the second entry is neither dropped nor consumed, and Dream reads on behind it.
   */
  lemma CrashThenDropSkipsAnEntry()
    ensures exists s :: Reachable(s) && s.appended == 2 && 1 !in s.dropped && 1 !in s.consumed
                        && !Waiting(s.file, s.dream, 1)
  {
    CrashAndDream();
    OneEntry();
    assert Entries([]) == {};
    assert Step(DREAMT, Drop("s", None)) == CLEARED;
    assert Step(CLEARED, Append(Some("s"), 0, true)) == SKIPPED;
    hide Step, Enabled, Run;
    var run := [AppendCrash(Some("s"), 0, true)] + [BeginDream(0)] + [EndDream(0, true, 0)];
    assert Enabled(DREAMT, Drop("s", None)) && Enabled(CLEARED, Append(Some("s"), 0, true)) by { AlwaysEnabled(); }
    RunOn(run, Drop("s", None));
    RunOn(run + [Drop("s", None)], Append(Some("s"), 0, true));
    assert Reachable(SKIPPED);
  }

  lemma AlwaysEnabled()
    ensures Enabled(DREAMT, Drop("s", None)) && Enabled(CLEARED, Append(Some("s"), 0, true))
  {
  }
}
