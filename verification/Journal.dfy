/** The history journal: a file of JSON lines with increasing cursors, and a counter file holding the last cursor. */
module Journal {
  import opened Wrappers

  /** The `cursor` field of an object: missing, not a non-negative integer, or valid. */
  datatype Field = Missing | Bad | Good(value: nat)

  /**
   An object of the file. `wellFormed` says that timestamp, content and session key have their types; `entry` is the
   number of the append that wrote it, `None` if another program did.
   */
  datatype Record = Record(cursor: Field, session: Option<string>, gen: int, wellFormed: bool, entry: Option<nat>)

  /** A line that does not parse, one that holds another JSON value, or an object. */
  datatype Line = Garbage | NonObject | Object(record: Record)

  predicate HasCursor(line: Line) {
    line.Object? && line.record.cursor.Good?
  }

  function CursorOf(line: Line): nat
    requires HasCursor(line)
  {
    line.record.cursor.value
  }

  /** What `_iter_valid_entries` yields. */
  predicate IsEntry(line: Line) {
    HasCursor(line) && line.record.wellFormed
  }

  function Filter(file: seq<Line>, keep: Line -> bool): seq<Line> {
    if file == [] then []
    else Filter(file[..|file| - 1], keep) + if keep(file[|file| - 1]) then [file[|file| - 1]] else []
  }

  /** The largest cursor of an entry, 0 without entries. */
  function ScanMax(file: seq<Line>): nat {
    if file == [] then 0
    else
      var line, rest := file[|file| - 1], ScanMax(file[..|file| - 1]);
      if IsEntry(line) && CursorOf(line) > rest then CursorOf(line) else rest
  }

  function Max(a: nat, b: nat): nat {
    if a >= b then a else b
  }

  /**
   `_next_cursor`. The last line is read from the file's last 4096 bytes; `readable` says that this finds a whole,
   decodable line.
   */
  function NextCursor(file: seq<Line>, counter: Option<nat>, readable: bool): nat {
    var n := |file|;
    var last := if readable && n > 0 && HasCursor(file[n - 1]) then Some(CursorOf(file[n - 1])) else None;
    if counter.Some? then
      if last.Some? then Max(counter.value, last.value) + 1 else Max(counter.value, ScanMax(file)) + 1
    else if last.Some? then last.value + 1
    else ScanMax(file) + 1
  }

  /** Entries later in the file have larger cursors. */
  ghost predicate Increasing(file: seq<Line>) {
    forall i, j :: 0 <= i < j < |file| && HasCursor(file[i]) && HasCursor(file[j]) ==>
      CursorOf(file[i]) < CursorOf(file[j])
  }

  /** Every object with a cursor is an entry. */
  ghost predicate CursorsAreEntries(file: seq<Line>) {
    forall line :: line in file && HasCursor(line) ==> IsEntry(line)
  }

  // ----- the next cursor ---------------------------------------------------------------------

  lemma {:induction false} ScanMaxIsMax(file: seq<Line>)
    ensures forall line :: line in file && IsEntry(line) ==> CursorOf(line) <= ScanMax(file)
    ensures ScanMax(file) == 0 || exists line :: line in file && IsEntry(line) && CursorOf(line) == ScanMax(file)
  {
    if file != [] {
      var k := |file| - 1;
      ScanMaxIsMax(file[..k]);
      assert file == file[..k] + [file[k]];
    }
  }

  function Counted(counter: Option<nat>): nat {
    if counter.Some? then counter.value else 0
  }

  /** The last line is an object that the fast path reads and the scan passes over, with a cursor above all others. */
  predicate TailIsAhead(file: seq<Line>, counter: Option<nat>, readable: bool) {
    && readable && file != []
    && var last := file[|file| - 1];
       HasCursor(last) && !IsEntry(last) && CursorOf(last) > Max(Counted(counter), ScanMax(file))
  }

  /**
   The next cursor is above the counter and every entry. The fast path through the last line agrees with the full scan,
   whether or not that line can be read, unless the line is a malformed object whose cursor is above all others.
   */
  lemma NextCursorIsAboveAll(file: seq<Line>, counter: Option<nat>, readable: bool)
    requires Increasing(file)
    ensures NextCursor(file, counter, readable) > Counted(counter)
    ensures forall line :: line in file && IsEntry(line) ==> NextCursor(file, counter, readable) > CursorOf(line)
    ensures NextCursor(file, counter, readable) == Max(Counted(counter), ScanMax(file)) + 1
            <==> !TailIsAhead(file, counter, readable)
    ensures CursorsAreEntries(file) ==> !TailIsAhead(file, counter, readable)
  {
    ScanMaxIsMax(file);
    if file != [] && HasCursor(file[|file| - 1]) {
      var last := file[|file| - 1];
      assert last in file;
      forall line | line in file && IsEntry(line) ensures CursorOf(line) <= CursorOf(last) {
        var i :| 0 <= i < |file| && file[i] == line;
      }
    }
  }

  /**
   A file of one malformed object with cursor 5: the next cursor is 6 if the last line can be read, and 1 if not. The
   entry after it then has a cursor below the object's.
   */
  lemma MalformedTailIsAhead()
    ensures exists file :: Increasing(file) && TailIsAhead(file, None, true)
                           && NextCursor(file, None, true) == 6 && NextCursor(file, None, false) == 1
  {
    var file := [Object(Record(Good(5), None, 0, false, None))];
    assert ScanMax(file[..0]) == 0 && ScanMax(file) == 0;
    assert TailIsAhead(file, None, true);
  }

  // ----- operations that rewrite the file ---------------------------------------------------------

  lemma {:induction false} FilterIsPart(file: seq<Line>, keep: Line -> bool)
    ensures forall line :: line in Filter(file, keep) <==> line in file && keep(line)
  {
    if file != [] {
      FilterIsPart(file[..|file| - 1], keep);
      assert file == file[..|file| - 1] + [file[|file| - 1]];
    }
  }

  /** A filter goes through the lines in order. */
  lemma FilterOneMore(file: seq<Line>, line: Line, keep: Line -> bool)
    ensures Filter([], keep) == []
    ensures Filter(file + [line], keep) == Filter(file, keep) + if keep(line) then [line] else []
  {
    assert (file + [line])[..|file|] == file;
  }

  lemma OrderAppend(file: seq<Line>, line: Line)
    requires Increasing(file)
    requires HasCursor(line) ==> forall other :: other in file && HasCursor(other) ==> CursorOf(other) < CursorOf(line)
    ensures Increasing(file + [line])
  {
  }

  lemma {:induction false} FilterKeepsOrder(file: seq<Line>, keep: Line -> bool)
    requires Increasing(file)
    ensures Increasing(Filter(file, keep))
  {
    if file != [] {
      var k := |file| - 1;
      FilterKeepsOrder(file[..k], keep);
      FilterIsPart(file[..k], keep);
      if keep(file[k]) {
        forall line | line in file[..k] && HasCursor(line) && HasCursor(file[k])
          ensures CursorOf(line) < CursorOf(file[k])
        {
          var i :| 0 <= i < k && file[i] == line;
        }
        OrderAppend(Filter(file[..k], keep), file[k]);
      }
    }
  }

  /** What the file keeps when a session's entries, of one generation or all, are dropped. */
  predicate Stays(line: Line, session: string, gen: Option<int>) {
    !(line.Object? && line.record.session == Some(session) && (gen.None? || line.record.gen == gen.value))
  }

  function Staying(session: string, gen: Option<int>): Line -> bool {
    line => Stays(line, session, gen)
  }

  function Dropped(file: seq<Line>, session: string, gen: Option<int>): seq<Line> {
    Filter(file, Staying(session, gen))
  }

  predicate IsObject(line: Line) {
    line.Object?
  }

  function Objects(file: seq<Line>): seq<Line> {
    Filter(file, IsObject)
  }

  /** The first object Dream has not passed. */
  function FirstUnprocessed(objects: seq<Line>, dream: int): (n: nat)
    ensures n <= |objects|
    ensures forall i :: 0 <= i < n && HasCursor(objects[i]) ==> CursorOf(objects[i]) <= dream
    ensures n < |objects| ==> HasCursor(objects[n]) && CursorOf(objects[n]) > dream
  {
    if objects == [] || (HasCursor(objects[0]) && CursorOf(objects[0]) > dream) then 0
    else 1 + FirstUnprocessed(objects[1..], dream)
  }

  function Compacted(file: seq<Line>, dream: int, limit: int): seq<Line> {
    var objects := Objects(file);
    if limit <= 0 || |objects| <= limit then file
    else
      var unprocessed := FirstUnprocessed(objects, dream);
      objects[if |objects| - limit <= unprocessed then |objects| - limit else unprocessed..]
  }

  /** The entries behind a cursor, in file order. */
  function Unprocessed(file: seq<Line>, since: int): seq<Line> {
    Filter(file, Behind(since))
  }

  function Behind(since: int): Line -> bool {
    line => IsEntry(line) && CursorOf(line) > since
  }

  const BATCH := 20

  function DreamBatch(file: seq<Line>, since: int): seq<Line> {
    var entries := Unprocessed(file, since);
    entries[..if |entries| <= BATCH then |entries| else BATCH]
  }

  lemma CompactedIsPart(file: seq<Line>, dream: int, limit: int)
    ensures forall line :: line in Compacted(file, dream, limit) ==> line in file
    ensures forall line :: line in file && HasCursor(line) && CursorOf(line) > dream ==>
              line in Compacted(file, dream, limit)
  {
    var objects, after := Objects(file), Compacted(file, dream, limit);
    FilterIsPart(file, IsObject);
    if after != file {
      var from := |objects| - |after|;
      assert after == objects[from..] && from <= FirstUnprocessed(objects, dream);
      forall line | line in file && HasCursor(line) && CursorOf(line) > dream ensures line in after {
        assert line in objects;
        var i :| 0 <= i < |objects| && objects[i] == line;
        assert i >= from;
        assert after[i - from] == line;
      }
    }
  }

  /** Compaction keeps no more than the limit, unless what it keeps begins with an entry Dream has yet to read. */
  lemma CompactionIsTight(file: seq<Line>, dream: int, limit: int)
    requires limit > 0
    ensures var (objects, after) := (Objects(file), Compacted(file, dream, limit));
            if |objects| <= limit then after == file
            else
              && limit <= |after| <= |objects| && after == objects[|objects| - |after|..]
              && (|after| > limit ==> HasCursor(after[0]) && CursorOf(after[0]) > dream)
  {
    hide Filter;
  }

  lemma CompactedKeepsOrder(file: seq<Line>, dream: int, limit: int)
    requires Increasing(file)
    ensures Increasing(Compacted(file, dream, limit))
  {
    FilterKeepsOrder(file, IsObject);
  }

  /** A batch holds every entry between Dream's cursor and the batch's last cursor. */
  lemma BatchHasAllUpToLast(file: seq<Line>, since: int, line: Line)
    requires Increasing(file) && DreamBatch(file, since) != []
    requires line in file && IsEntry(line) && since < CursorOf(line)
    requires var batch := DreamBatch(file, since);
             HasCursor(batch[|batch| - 1]) && CursorOf(line) <= CursorOf(batch[|batch| - 1])
    ensures line in DreamBatch(file, since)
  {
    var entries, batch := Unprocessed(file, since), DreamBatch(file, since);
    FilterIsPart(file, Behind(since));
    FilterKeepsOrder(file, Behind(since));
    assert line in entries;
    var i :| 0 <= i < |entries| && entries[i] == line;
    assert entries[|batch| - 1] == batch[|batch| - 1];
    assert batch[i] == line;
  }

  lemma BatchIsBehind(file: seq<Line>, since: int)
    ensures var batch := DreamBatch(file, since);
            && |batch| <= 20
            && (forall line :: line in batch ==> line in file && IsEntry(line) && CursorOf(line) > since)
            && (|batch| < 20 ==>
                  forall line :: line in file && IsEntry(line) && CursorOf(line) > since ==> line in batch)
  {
    FilterIsPart(file, Behind(since));
    var entries, batch := Unprocessed(file, since), DreamBatch(file, since);
    assert forall line :: line in batch ==> line in entries;
    if |batch| < 20 { assert batch == entries; }
  }

  // ----- the store ---------------------------------------------------------------------------------

  class MemoryStore {
    var file: seq<Line>
    var counter: Option<nat>
    var dream: nat
    const limit: int

    constructor (limit: int)
      ensures file == [] && counter == None && dream == 0 && this.limit == limit
    {
      file, counter, dream := [], None, 0;
      this.limit := limit;
    }

    /** `_append_history_record`: the record is written before the counter. */
    method AppendHistoryRecord(session: Option<string>, gen: int, entry: nat, readable: bool) returns (cursor: nat)
      modifies this
      ensures cursor == old(NextCursor(file, counter, readable))
      ensures file == old(file) + [Object(Record(Good(cursor), session, gen, true, Some(entry)))]
      ensures counter == Some(cursor) && dream == old(dream)
      ensures old(Increasing(file) && CursorsAreEntries(file)) ==>
                Increasing(file) && CursorsAreEntries(file) && counter.value == ScanMax(file)
    {
      cursor := NextCursor(file, counter, readable);
      if Increasing(file) && CursorsAreEntries(file) {
        NextCursorIsAboveAll(file, counter, readable);
        ScanMaxIsMax(file);
      }
      ghost var before := file;
      file := file + [Object(Record(Good(cursor), session, gen, true, Some(entry)))];
      assert file[..|file| - 1] == before;
      counter := Some(cursor);
    }

    method ReadEntries() returns (entries: seq<Line>)
      ensures entries == Objects(file)
    {
      entries := [];
      for i := 0 to |file|
        invariant entries == Objects(file[..i])
      {
        assert file[..i + 1][..i] == file[..i];
        if file[i].Object? {
          entries := entries + [file[i]];
        }
      }
      assert file[..|file|] == file;
    }

    method CompactHistory()
      modifies `file
      ensures file == Compacted(old(file), dream, limit)
    {
      if limit <= 0 {
        return;
      }
      var entries := ReadEntries();
      if |entries| <= limit {
        return;
      }
      var unprocessed := 0;
      while unprocessed < |entries| && !(HasCursor(entries[unprocessed]) && CursorOf(entries[unprocessed]) > dream)
        invariant unprocessed <= |entries|
        invariant FirstUnprocessed(entries, dream) == unprocessed + FirstUnprocessed(entries[unprocessed..], dream)
      {
        assert entries[unprocessed..][1..] == entries[unprocessed + 1..];
        unprocessed := unprocessed + 1;
      }
      var keepFrom := if |entries| - limit <= unprocessed then |entries| - limit else unprocessed;
      file := entries[keepFrom..];
    }

    /** The number of entries removed; the file is written only if there are any. */
    method DropSessionHistory(session: string, gen: Option<int>) returns (removed: nat)
      modifies `file
      ensures file == Dropped(old(file), session, gen) && removed == |old(file)| - |file|
      // Exactly the session's objects go, of the generation if one is given; lines that are no objects stay.
      ensures forall line :: line in file <==>
                line in old(file) &&
                match line
                case Object(Record(_, owner, g, _, _)) => owner != Some(session) || (gen.Some? && gen.value != g)
                case _ => true
    {
      FilterIsPart(file, Staying(session, gen));
      var kept: seq<Line> := [];
      for i := 0 to |file|
        invariant kept == Filter(file[..i], Staying(session, gen)) && |kept| <= i
        invariant |kept| == i ==> kept == file[..i]
      {
        assert file[..i + 1][..i] == file[..i];
        if Stays(file[i], session, gen) {
          kept := kept + [file[i]];
        }
      }
      assert file[..|file|] == file;
      removed := |file| - |kept|;
      if removed != 0 {
        file := kept;
      }
    }

    /** `build_dream_prompt`: the lines of the next batch, none if there is nothing to process. */
    method BuildDreamBatch() returns (batch: seq<Line>)
      ensures batch == DreamBatch(file, dream)
      // Twenty lines at most, each a well-formed object behind Dream's cursor; fewer only if there are no others.
      ensures |batch| <= 20
      ensures forall line :: line in batch ==>
                && line in file && line.Object? && line.record.wellFormed
                && line.record.cursor.Good? && line.record.cursor.value > dream
      ensures |batch| < 20 ==>
                forall line ::
                  (line in file && line.Object? && line.record.wellFormed
                   && line.record.cursor.Good? && line.record.cursor.value > dream) ==> line in batch
    {
      BatchIsBehind(file, dream);
      var entries: seq<Line> := [];
      for i := 0 to |file|
        invariant entries == Filter(file[..i], Behind(dream))
      {
        assert file[..i + 1][..i] == file[..i];
        if IsEntry(file[i]) && CursorOf(file[i]) > dream {
          entries := entries + [file[i]];
        }
      }
      assert file[..|file|] == file;
      batch := entries[..if |entries| <= BATCH then |entries| else BATCH];
    }

    /** The end of `run_dream`: only a completed run moves the cursor, every run compacts. */
    method FinishDream(last: nat, completed: bool)
      modifies this
      ensures dream == if completed then last else old(dream)
      ensures file == Compacted(old(file), dream, limit) && counter == old(counter)
    {
      if completed {
        dream := last;
      }
      CompactHistory();
    }
  }
}
