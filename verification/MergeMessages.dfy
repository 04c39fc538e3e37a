/** Adjacent user messages are merged in the model's copy, and their runtime context stays detachable. */
module MergeMessages {
  import opened Wrappers
  import opened Strings
  import opened RuntimeContext
  import opened Transcript

  const SUMMARY_CONTINUATION_TEXT :=
    "Continue the active task " + "from the working-memory " + "checkpoint above."

  // ----- one merge ---------------------------------------------------------------------

  function TextBlocksOf(content: Content): seq<Block> {
    match content
    case Absent => []
    case Text(text) => [TextBlock(text)]
    case Blocks(blocks) =>
      seq(|blocks|, i requires 0 <= i < |blocks| =>
        if blocks[i].RawItem? then TextBlock(blocks[i].repr) else blocks[i])
  }

  /** `_merge_message_content`. */
  function MergeContent(left: Content, right: Content): Content {
    if left.Text? && right.Text? then Text(WithSuffix(left.text, right.text))
    else Blocks(TextBlocksOf(left) + TextBlocksOf(right))
  }

  function MarkerOf(m: Message): Option<Marker> {
    if m.meta.Some? then m.meta.value.marker else None
  }

  /** The message taken apart: all of it is visible without a marker; `None` if the marker does not fit. */
  function View(m: Message): Option<Detached> {
    match MarkerOf(m)
    case None => Some(Detached(m.content, [], []))
    case Some(marker) => Detach(m.content, marker)
  }

  predicate Mergeable(m: Message) {
    && m.role == User
    && m.content != Text(SUMMARY_CONTINUATION_TEXT)
    && !m.hidden
    && !(m.meta.Some? && m.meta.value.boundary)
  }

  /** The left message's entries win, and the right one's fill in. */
  function MergeMeta(left: Option<Meta>, right: Option<Meta>, marker: Marker): (m: Meta)
    ensures m.marker == Some(marker)
    ensures left.Some? ==> forall k :: k in left.value.entries ==>
              k in m.entries && m.entries[k] == left.value.entries[k]
    ensures right.Some? ==> forall k :: k in right.value.entries && (left.None? || k !in left.value.entries) ==>
              k in m.entries && m.entries[k] == right.value.entries[k]
  {
    var l := if left.Some? then left.value else Meta(None, false, map[]);
    var r := if right.Some? then right.value else Meta(None, false, map[]);
    Meta(Some(marker), l.boundary || r.boundary, r.entries + l.entries)
  }

  function MergeTwo(left: Message, right: Message): Message {
    match (View(left), View(right))
    case (Some(l), Some(r)) =>
      var visible := MergeContent(l.visible, r.visible);
      var context := l.context + r.context;
      if context == [] then left.(content := visible)
      else
        var (content, marker) := Reattach(visible, l.sources + r.sources, context);
        left.(content := content, meta := Some(MergeMeta(left.meta, right.meta, marker)))
    case _ => left.(content := MergeContent(left.content, right.content))
  }

  // ----- the pass -----------------------------------------------------------------------

  function Merged(ms: seq<Message>): seq<Message> {
    if ms == [] then []
    else
      var k := |ms| - 1;
      Attach(Merged(ms[..k]), ms[k])
  }

  function Attach(prepared: seq<Message>, m: Message): seq<Message> {
    var n := |prepared|;
    if n > 0 && Mergeable(prepared[n - 1]) && Mergeable(m)
    then prepared[n - 1 := MergeTwo(prepared[n - 1], m)]
    else prepared + [m]
  }

  method MergeAdjacentUserMessages(messages: seq<Message>) returns (prepared: seq<Message>)
    ensures prepared == Merged(messages)
  {
    prepared := [];
    for i := 0 to |messages|
      invariant prepared == Merged(messages[..i])
    {
      assert messages[..i + 1][..i] == messages[..i];
      var injection := messages[i];
      var n := |prepared|;
      if n > 0 && Mergeable(injection) && Mergeable(prepared[n - 1]) {
        var merged := prepared[n - 1];
        var left, right := View(merged), View(injection);
        if left.Some? && right.Some? {
          var content := MergeContent(left.value.visible, right.value.visible);
          var context := left.value.context + right.value.context;
          if context != [] {
            var (joined, marker) := Reattach(content, left.value.sources + right.value.sources, context);
            content := joined;
            merged := merged.(meta := Some(MergeMeta(merged.meta, injection.meta, marker)));
          }
          merged := merged.(content := content);
        } else {
          merged := merged.(content := MergeContent(merged.content, injection.content));
        }
        prepared := prepared[n - 1 := merged];
      } else {
        prepared := prepared + [injection];
      }
    }
    assert messages[..|messages|] == messages;
  }

  // ----- the pass folds consecutive groups of messages ---------------------------------------

  function FoldRun(run: seq<Message>): Message
    requires run != []
  {
    if |run| == 1 then run[0] else MergeTwo(FoldRun(run[..|run| - 1]), run[|run| - 1])
  }

  predicate NonEmptyGroups(groups: seq<seq<Message>>) {
    forall i :: 0 <= i < |groups| ==> groups[i] != []
  }

  /** The input cut into the groups that end up in one message each. */
  function Groups(ms: seq<Message>): (groups: seq<seq<Message>>)
    ensures NonEmptyGroups(groups)
  {
    if ms == [] then []
    else
      var k := |ms| - 1;
      Extend(Groups(ms[..k]), ms[k])
  }

  function Extend(groups: seq<seq<Message>>, m: Message): (r: seq<seq<Message>>)
    requires NonEmptyGroups(groups)
    ensures NonEmptyGroups(r)
  {
    var n := |groups|;
    if n > 0 && Mergeable(FoldRun(groups[n - 1])) && Mergeable(m)
    then groups[n - 1 := groups[n - 1] + [m]]
    else groups + [[m]]
  }

  function FoldEach(groups: seq<seq<Message>>): seq<Message>
    requires NonEmptyGroups(groups)
  {
    seq(|groups|, i requires 0 <= i < |groups| => FoldRun(groups[i]))
  }

  function Concat(groups: seq<seq<Message>>): seq<Message> {
    if groups == [] then [] else Concat(groups[..|groups| - 1]) + groups[|groups| - 1]
  }

  /** The result has one message for each group: the left fold of its members. */
  lemma {:induction false} MergedFoldsGroups(ms: seq<Message>)
    ensures Merged(ms) == FoldEach(Groups(ms))
  {
    if ms != [] {
      hide Mergeable, MergeTwo, FoldRun, Attach, Extend;
      var k := |ms| - 1;
      MergedFoldsGroups(ms[..k]);
      AttachFoldsGroups(Groups(ms[..k]), ms[k]);
    }
  }

  lemma AttachFoldsGroups(groups: seq<seq<Message>>, m: Message)
    requires NonEmptyGroups(groups)
    ensures Attach(FoldEach(groups), m) == FoldEach(Extend(groups, m))
  {
    var n := |groups|;
    if n > 0 { FoldOneMore(groups[n - 1], m); }
    FoldOfOne([m]);
    hide Mergeable, MergeTwo, FoldRun;
    assert |FoldEach(groups)| == n;
  }

  lemma FoldOneMore(run: seq<Message>, m: Message)
    requires run != []
    ensures FoldRun(run + [m]) == MergeTwo(FoldRun(run), m)
  {
    hide MergeTwo;
    assert (run + [m])[..|run|] == run;
  }

  /** The groups, put together, are the input; a group is one message or consists of mergeable ones. */
  lemma {:induction false} GroupsCoverTheInput(ms: seq<Message>)
    ensures Concat(Groups(ms)) == ms && GroupsAreMergeable(Groups(ms))
  {
    hide Mergeable, MergeTwo, FoldRun, Concat, GroupsAreMergeable, Extend;
    if ms == [] {
      NoGroups();
    } else {
      var k := |ms| - 1;
      GroupsCoverTheInput(ms[..k]);
      ExtendCovers(Groups(ms[..k]), ms[k]);
      assert ms == ms[..k] + [ms[k]];
    }
  }

  lemma NoGroups()
    ensures Concat([]) == [] && GroupsAreMergeable([])
  {
  }

  predicate GroupsAreMergeable(groups: seq<seq<Message>>) {
    forall i :: 0 <= i < |groups| ==> |groups[i]| == 1 || AllMergeable(groups[i])
  }

  lemma ExtendCovers(groups: seq<seq<Message>>, m: Message)
    requires NonEmptyGroups(groups) && GroupsAreMergeable(groups)
    ensures Concat(Extend(groups, m)) == Concat(groups) + [m] && GroupsAreMergeable(Extend(groups, m))
  {
    hide Mergeable, MergeTwo, FoldRun, AllMergeable;
    var n := |groups|;
    if n > 0 && Mergeable(FoldRun(groups[n - 1])) && Mergeable(m) {
      LastIsMergeable(groups[n - 1], m);
      assert Extend(groups, m)[..n - 1] == groups[..n - 1];
    } else {
      assert Extend(groups, m)[..n] == groups;
    }
  }

  lemma FoldOfOne(run: seq<Message>)
    requires |run| == 1
    ensures FoldRun(run) == run[0]
  {
  }

  lemma LastIsMergeable(group: seq<Message>, m: Message)
    requires group != [] && (|group| == 1 || AllMergeable(group)) && Mergeable(FoldRun(group)) && Mergeable(m)
    ensures AllMergeable(group + [m])
  {
    hide Mergeable, FoldRun;
    if |group| == 1 { FoldOfOne(group); }
  }

  /** A group ends where its fold, or the next message, cannot be merged. */
  lemma {:induction false} GroupsEndForAReason(ms: seq<Message>, i: nat)
    requires 0 < i < |Groups(ms)|
    ensures !(Mergeable(FoldRun(Groups(ms)[i - 1])) && Mergeable(Groups(ms)[i][0]))
  {
    if ms != [] {
      hide Mergeable, MergeTwo, FoldRun;
      var k := |ms| - 1;
      if i < |Groups(ms[..k])| { GroupsEndForAReason(ms[..k], i); }
    }
  }

  // ----- when a merger cannot be merged again ---------------------------------------------------

  /** The continuation prompt behind a bare gap, with a marker that takes it for context. */
  predicate PromptBehindGap(m: Message) {
    && m.content == Text(GAP + SUMMARY_CONTINUATION_TEXT)
    && MarkerOf(m).Some? && MarkerOf(m).value.version == 1
    && MarkerOf(m).value.suffix == Some(SUMMARY_CONTINUATION_TEXT)
  }

  predicate Blank(m: Message) {
    m.content == Text("") && MarkerOf(m).None?
  }

  predicate Trips(left: Message, right: Message) {
    (PromptBehindGap(left) && Blank(right)) || (Blank(left) && PromptBehindGap(right))
  }

  lemma {:induction false} MembersAreInput(groups: seq<seq<Message>>, i: nat)
    requires i < |groups|
    ensures forall m :: m in groups[i] ==> m in Concat(groups)
  {
    var k := |groups| - 1;
    if i < k { MembersAreInput(groups[..k], i); }
  }

  predicate AllMergeable(ms: seq<Message>) {
    forall m :: m in ms ==> Mergeable(m)
  }

  lemma ContinuationHasNoGap(i: nat)
    requires i < |SUMMARY_CONTINUATION_TEXT|
    ensures SUMMARY_CONTINUATION_TEXT[i] != '\n'
  {
    var a, b, c := "Continue the active task ", "from the working-memory ", "checkpoint above.";
    assert '\n' !in a && '\n' !in b && '\n' !in c;
    assert SUMMARY_CONTINUATION_TEXT[i] in a + b + c;
  }

  lemma WithSuffixIsNotContinuation(text: string, suffix: string)
    requires text != ""
    ensures WithSuffix(text, suffix) != SUMMARY_CONTINUATION_TEXT
  {
    assert WithSuffix(text, suffix)[|text|] == '\n';
    if |text| < |SUMMARY_CONTINUATION_TEXT| { ContinuationHasNoGap(|text|); }
  }

  lemma MergedContentIsNotPrompt(left: Content, right: Content)
    requires left != Text(SUMMARY_CONTINUATION_TEXT) && right != Text(SUMMARY_CONTINUATION_TEXT)
    ensures MergeContent(left, right) != Text(SUMMARY_CONTINUATION_TEXT)
  {
    if left.Text? && right.Text? && left.text != "" { WithSuffixIsNotContinuation(left.text, right.text); }
  }

  /** What `Detach` returns has the shape of the content. */
  lemma DetachShape(content: Content, marker: Marker)
    requires Detach(content, marker).Some?
    ensures var d := Detach(content, marker).value;
            && d.context != [] && d.sources == NonEmpty(marker.sources)
            && if content.Text? then
                 && d.visible.Text? && |d.context| == 1 && d.context[0].TextBlock? && d.context[0].text != ""
                 && marker.suffix == Some(d.context[0].text)
               else
                 && content.Blocks? && d.visible.Blocks? && content.blocks == d.visible.blocks + d.context
  {
    var d := Detach(content, marker).value;
    if content.Blocks? {
      var k := |content.blocks| - |marker.blocks.value|;
      assert content.blocks == content.blocks[..k] + content.blocks[k..];
    }
  }

  predicate ShapedLike(d: Detached, content: Content) {
    if content.Text? then
      && d.visible.Text?
      && if d.context == [] then content == d.visible
         else
           |d.context| == 1 && d.context[0].TextBlock? && d.context[0].text != ""
    else
      (content.Blocks? && d.visible.Blocks?) || (content == d.visible && d.context == [])
  }

  lemma ViewShape(m: Message)
    requires View(m).Some?
    ensures ShapedLike(View(m).value, m.content)
  {
    if MarkerOf(m).Some? { DetachShape(m.content, MarkerOf(m).value); }
  }

  lemma {:induction false} JoinOfTwo(a: string, b: string)
    ensures Join([a, b]) == a + GAP + b
  {
    assert [a, b][1..] == [b];
  }

  /** Two mergeable messages become one that is not mergeable exactly if the merger shows nothing but the prompt. */
  lemma TripsIff(left: Message, right: Message)
    requires Mergeable(left) && Mergeable(right)
    ensures !Mergeable(MergeTwo(left, right)) <==> Trips(left, right)
  {
    TripsAreViewed(left, right);
    if View(left).Some? && View(right).Some? {
      var (l, r) := (View(left).value, View(right).value);
      ViewShape(left);
      ViewShape(right);
      ViewIsPromptIff(left);
      ViewIsPromptIff(right);
      hide Detach, View;
      ViewedMergeIsPromptIff(left, right, l, r);
    } else {
      MergedContentIsNotPrompt(left.content, right.content);
    }
  }

  lemma TripsAreViewed(left: Message, right: Message)
    ensures Trips(left, right) ==> View(left).Some? && View(right).Some?
  {
    if PromptBehindGap(left) { PromptBehindGapDetaches(left); }
    if PromptBehindGap(right) { PromptBehindGapDetaches(right); }
  }

  lemma PromptBehindGapDetaches(m: Message)
    requires PromptBehindGap(m)
    ensures var context := [TextBlock(SUMMARY_CONTINUATION_TEXT)];
            View(m) == Some(Detached(Text(""), NonEmpty(MarkerOf(m).value.sources), context))
  {
    var prompt := SUMMARY_CONTINUATION_TEXT;
    assert |GAP + prompt| == |prompt| + 2 && |prompt| > 0;
    assert (GAP + prompt)[..0] == "";
  }

  /** Nothing visible before the prompt as context, or nothing at all: read off the detached parts. */
  lemma ViewIsPromptIff(m: Message)
    requires Mergeable(m) && View(m).Some?
    ensures var d := View(m).value;
            && (PromptBehindGap(m) <==> d.visible == Text("") && d.context == [TextBlock(SUMMARY_CONTINUATION_TEXT)])
            && (Blank(m) <==> d.visible == Text("") && d.context == [])
  {
    var d := View(m).value;
    if PromptBehindGap(m) { PromptBehindGapDetaches(m); }
    if MarkerOf(m).Some? { DetachShape(m.content, MarkerOf(m).value); }
    if d.visible == Text("") && d.context == [TextBlock(SUMMARY_CONTINUATION_TEXT)] {
      var prompt := SUMMARY_CONTINUATION_TEXT;
      assert m.content.Text? && MarkerOf(m).value.suffix == Some(prompt);
      assert EndsWith(m.content.text, GAP + prompt);
      assert m.content.text == m.content.text[..|m.content.text| - |GAP + prompt|] + (GAP + prompt);
    }
  }

  lemma ViewedMergeIsPromptIff(left: Message, right: Message, l: Detached, r: Detached)
    requires Mergeable(left) && Mergeable(right) && View(left) == Some(l) && View(right) == Some(r)
    requires ShapedLike(l, left.content) && ShapedLike(r, right.content)
    ensures var prompt := [TextBlock(SUMMARY_CONTINUATION_TEXT)];
            !Mergeable(MergeTwo(left, right)) <==>
              l.visible == r.visible == Text("") &&
              ((l.context == prompt && r.context == []) || (l.context == [] && r.context == prompt))
  {
    hide View, Detach;
    var visible, context := MergeContent(l.visible, r.visible), l.context + r.context;
    if context == [] {
      MergedContentIsNotPrompt(left.content, right.content);
    } else if l.visible.Text? && r.visible.Text? {
      MergedTextIsPromptIff(l, r);
    }
  }

  /** Text with at most one context block, as a marker with a suffix gives it. */
  predicate TextView(d: Detached) {
    d.visible.Text? &&
    (d.context == [] || (|d.context| == 1 && d.context[0].TextBlock? && d.context[0].text != ""))
  }

  lemma MergedTextIsPromptIff(l: Detached, r: Detached)
    requires TextView(l) && TextView(r) && l.context + r.context != []
    ensures var prompt := [TextBlock(SUMMARY_CONTINUATION_TEXT)];
            var visible := MergeContent(l.visible, r.visible);
            var (content, _) := Reattach(visible, l.sources + r.sources, l.context + r.context);
            content == Text(SUMMARY_CONTINUATION_TEXT) <==>
              l.visible == r.visible == Text("") &&
              ((l.context == prompt && r.context == []) || (l.context == [] && r.context == prompt))
  {
    var visible, context := MergeContent(l.visible, r.visible), l.context + r.context;
    var texts := Texts(context);
    if |context| == 2 {
      assert texts == [l.context[0].text, r.context[0].text];
      JoinOfTwo(l.context[0].text, r.context[0].text);
      WithSuffixIsNotContinuation(l.context[0].text, r.context[0].text);
    } else if l.context != [] {
      assert context == l.context && texts == [l.context[0].text];
    } else {
      assert context == r.context && texts == [r.context[0].text];
    }
    if visible.text != "" { WithSuffixIsNotContinuation(visible.text, Join(texts)); }
  }

  /** Where two mergeable messages meet between groups, the last merger of the first group showed only the prompt. */
  lemma BordersAreGenuineIff(ms: seq<Message>, i: nat)
    requires 0 < i < |Groups(ms)|
    ensures var (before, next) := (Groups(ms)[i - 1], Groups(ms)[i][0]);
            var (init, last) := (before[..|before| - 1], before[|before| - 1]);
            Mergeable(last) && Mergeable(next) <==> Mergeable(next) && init != [] && Trips(FoldRun(init), last)
  {
    hide Mergeable, Trips, MergeTwo, FoldRun, Groups, Concat, AllMergeable;
    var before := Groups(ms)[i - 1];
    GroupsEndForAReason(ms, i);
    GroupsCoverTheInput(ms);
    if |before| > 1 { InitFoldIsMergeable(ms, i - 1); }
    assert |before| == 1 || AllMergeable(before);
    LastMergerTripsIff(before);
  }

  lemma LastMergerTripsIff(group: seq<Message>)
    requires group != [] && (|group| == 1 || (AllMergeable(group) && Mergeable(FoldRun(group[..|group| - 1]))))
    ensures var (init, last) := (group[..|group| - 1], group[|group| - 1]);
            Mergeable(last) && !Mergeable(FoldRun(group)) <==> init != [] && Trips(FoldRun(init), last)
  {
    hide Mergeable, Trips, MergeTwo, FoldRun;
    var (init, last) := (group[..|group| - 1], group[|group| - 1]);
    if init == [] {
      FoldOfOne(group);
    } else {
      assert last in group && group == init + [last];
      FoldOneMore(init, last);
      TripsIff(FoldRun(init), last);
    }
  }

  lemma {:induction false} InitFoldIsMergeable(ms: seq<Message>, i: nat)
    requires i < |Groups(ms)| && |Groups(ms)[i]| > 1
    ensures Mergeable(FoldRun(Groups(ms)[i][..|Groups(ms)[i]| - 1]))
  {
    hide Mergeable, MergeTwo, FoldRun;
    var k := |ms| - 1;
    var groups := Groups(ms[..k]);
    if i < |groups| && Groups(ms)[i] == groups[i] {
      InitFoldIsMergeable(ms[..k], i);
    } else {
      assert Groups(ms)[i] == groups[i] + [ms[k]];
      assert (groups[i] + [ms[k]])[..|groups[i]|] == groups[i];
    }
  }

  // ----- lists in which groups are maximal ------------------------------------------------------------

  /** A marker for the prompt as context stands neither on a blank text nor on the prompt behind a bare gap. */
  predicate WellMarked(m: Message) {
    MarkerOf(m).Some? && MarkerOf(m).value.suffix == Some(SUMMARY_CONTINUATION_TEXT) ==>
      m.content !in {Text(""), Text(GAP + SUMMARY_CONTINUATION_TEXT)}
  }

  /** Putting the prompt on a text gives the prompt itself, or something longer than it with a gap. */
  lemma PromptPutOn(text: string)
    ensures WithSuffix(text, SUMMARY_CONTINUATION_TEXT) !in {"", GAP + SUMMARY_CONTINUATION_TEXT}
  {
    var prompt := SUMMARY_CONTINUATION_TEXT;
    assert |prompt| > 0 && |GAP + prompt| == |prompt| + 2;
    assert text != "" ==> |WithSuffix(text, prompt)| == |text| + 2 + |prompt|;
  }

  /** What appending and putting back write is well marked, whatever they are given. */
  lemma WrittenIsWellMarked(m: Message, content: Content, blocks: seq<ContextBlock>, sources: seq<string>,
                            context: seq<Block>)
    requires || (m.content, MarkerOf(m)) == Append(content, blocks)
             || (m.content, MarkerOf(m)) == (Reattach(content, sources, context).0,
                                             Some(Reattach(content, sources, context).1))
    ensures WellMarked(m)
  {
    if m.content.Text? && MarkerOf(m).Some? && MarkerOf(m).value.suffix == Some(SUMMARY_CONTINUATION_TEXT) {
      PromptPutOn(if content.Text? then content.text else "");
    }
  }

  lemma MergeStaysWellMarked(left: Message, right: Message)
    requires Mergeable(left) && Mergeable(right) && WellMarked(left) && WellMarked(right)
    ensures Mergeable(MergeTwo(left, right)) && WellMarked(MergeTwo(left, right))
  {
    TripsIff(left, right);
    var m := MergeTwo(left, right);
    if View(left).Some? && View(right).Some? {
      var (l, r) := (View(left).value, View(right).value);
      var visible, context := MergeContent(l.visible, r.visible), l.context + r.context;
      if context == [] {
        ViewShape(left);
        ContextMeansMarker(left);
      } else {
        WrittenIsWellMarked(m, visible, [], l.sources + r.sources, context);
      }
    } else if m.content.Text? && MarkerOf(m).Some? && MarkerOf(m).value.suffix == Some(SUMMARY_CONTINUATION_TEXT) {
      MergedTextIsNotBare(left.content.text, right.content.text);
    }
  }

  lemma ContextMeansMarker(m: Message)
    requires View(m).Some? && View(m).value.context == []
    ensures MarkerOf(m).None?
  {
    if MarkerOf(m).Some? { DetachShape(m.content, MarkerOf(m).value); }
  }

  lemma MergedTextIsNotBare(left: string, right: string)
    requires left != "" && right != SUMMARY_CONTINUATION_TEXT
    ensures WithSuffix(left, right) !in {"", GAP + SUMMARY_CONTINUATION_TEXT}
  {
    var merged := WithSuffix(left, right);
    if merged == GAP + SUMMARY_CONTINUATION_TEXT {
      assert merged[|left| + 1] == '\n';
      ContinuationHasNoGap(|left| - 1);
    }
  }

  lemma {:induction false} FoldStaysWellMarked(run: seq<Message>)
    requires run != [] && AllMergeable(run) && forall m :: m in run ==> WellMarked(m)
    ensures Mergeable(FoldRun(run)) && WellMarked(FoldRun(run))
  {
    hide Mergeable, MergeTwo, WellMarked;
    if |run| > 1 {
      FoldStaysWellMarked(run[..|run| - 1]);
      MergeStaysWellMarked(FoldRun(run[..|run| - 1]), run[|run| - 1]);
    }
  }

  /** Over well-marked messages the groups are the maximal stretches of mergeable messages. */
  lemma GroupsAreMaximal(ms: seq<Message>, i: nat)
    requires (forall m :: m in ms ==> WellMarked(m)) && 0 < i < |Groups(ms)|
    ensures var before := Groups(ms)[i - 1];
            !(Mergeable(before[|before| - 1]) && Mergeable(Groups(ms)[i][0]))
  {
    hide Mergeable, MergeTwo, WellMarked, FoldRun, Trips, Groups, Concat;
    GroupsEndForAReason(ms, i);
    GroupsCoverTheInput(ms);
    var groups := Groups(ms);
    MembersAreInput(groups, i - 1);
    if AllMergeable(groups[i - 1]) {
      FoldStaysWellMarked(groups[i - 1]);
    } else {
      FoldOfOne(groups[i - 1]);
    }
  }

  lemma {:induction false} MergedIsNoLonger(ms: seq<Message>)
    ensures |Merged(ms)| <= |ms|
  {
    if ms != [] { MergedIsNoLonger(ms[..|ms| - 1]); }
  }

  // ----- what is merged ---------------------------------------------------------------------

  /** Only plain prompts of the user are merged. */
  predicate StandsAlone(m: Message) {
    || m.role != User || m.hidden || m.content == Text(SUMMARY_CONTINUATION_TEXT)
    || (m.meta.Some? && m.meta.value.boundary)
  }

  /** Everything else is in the result as it was. */
  lemma {:induction false} OthersStayAsTheyAre(ms: seq<Message>, m: Message)
    requires m in ms && StandsAlone(m)
    ensures m in Merged(ms)
  {
    hide MergeTwo;
    var k := |ms| - 1;
    var before := Merged(ms[..k]);
    assert ms == ms[..k] + [ms[k]];
    if m in ms[..k] {
      OthersStayAsTheyAre(ms[..k], m);
      var i :| 0 <= i < |before| && before[i] == m;
      assert Merged(ms)[i] == m;
    } else {
      assert Merged(ms)[|before|] == m;
    }
  }

  /** Of two neighbours in the result one stands alone. */
  lemma NeighboursStandAlone(ms: seq<Message>, i: nat)
    requires 0 < i < |Merged(ms)|
    ensures StandsAlone(Merged(ms)[i - 1]) || StandsAlone(Merged(ms)[i])
  {
    MergedHasNoNeighbours(ms);
  }

  // ----- merging is idempotent --------------------------------------------------------------

  ghost predicate NoNeighbours(ms: seq<Message>) {
    forall i :: 0 < i < |ms| ==> !(Mergeable(ms[i - 1]) && Mergeable(ms[i]))
  }

  lemma {:induction false} MergedHasNoNeighbours(ms: seq<Message>)
    ensures NoNeighbours(Merged(ms))
  {
    if ms != [] {
      hide Mergeable, MergeTwo;
      var k := |ms| - 1;
      MergedHasNoNeighbours(ms[..k]);
    }
  }

  lemma {:induction false} NothingToMerge(ms: seq<Message>)
    requires NoNeighbours(ms)
    ensures Merged(ms) == ms
  {
    if ms != [] { NothingToMerge(ms[..|ms| - 1]); }
  }

  lemma MergeIsIdempotent(ms: seq<Message>)
    ensures Merged(Merged(ms)) == Merged(ms)
  {
    MergedHasNoNeighbours(ms);
    NothingToMerge(Merged(ms));
  }

  // ----- merging is reversible ---------------------------------------------------------------

  /** The left fold of the visible contents. */
  function VisibleOf(run: seq<Message>): Content
    requires run != [] && forall m :: m in run ==> View(m).Some?
  {
    var k := |run| - 1;
    if k == 0 then View(run[0]).value.visible
    else MergeContent(VisibleOf(run[..k]), View(run[k]).value.visible)
  }

  function SourcesIn(run: seq<Message>): seq<string>
    requires forall m :: m in run ==> View(m).Some?
  {
    if run == [] then [] else SourcesIn(run[..|run| - 1]) + View(run[|run| - 1]).value.sources
  }

  function ContextIn(run: seq<Message>): seq<Block>
    requires forall m :: m in run ==> View(m).Some?
  {
    if run == [] then [] else ContextIn(run[..|run| - 1]) + View(run[|run| - 1]).value.context
  }

  /** The same context blocks in the same order, except that some leading texts may have been joined into one. */
  ghost predicate SameContext(joined: seq<Block>, blocks: seq<Block>) {
    if blocks == [] then joined == [] else exists n: nat :: JoinsFirst(joined, blocks, n)
  }

  ghost predicate JoinsFirst(joined: seq<Block>, blocks: seq<Block>, n: nat) {
    1 <= n <= |blocks| &&
    (joined == blocks ||
     (AllText(blocks[..n]) && joined == [TextBlock(Join(Texts(blocks[..n])))] + blocks[n..]))
  }

  lemma {:induction false} NonEmptyTwice(a: seq<string>)
    ensures NonEmpty(NonEmpty(a)) == NonEmpty(a)
  {
    if a != [] {
      NonEmptyTwice(a[1..]);
      if a[0] != "" {
        assert NonEmpty(a)[1..] == NonEmpty(a[1..]);
      } else {
        assert NonEmpty(a) == NonEmpty(a[1..]);
      }
    }
  }

  /** What two detached messages are detached to once merged. */
  function Rejoined(l: Detached, r: Detached): Detached {
    var context := l.context + r.context;
    Detached(MergeContent(l.visible, r.visible), l.sources + r.sources,
             if l.visible.Text? && r.visible.Text? && |context| == 2 && AllText(context)
             then [TextBlock(Join(Texts(context)))] else context)
  }

  // What a merger shows, said block by block.

  /** A content as blocks: none, one text, or its own blocks with anything that is no mapping written out. */
  predicate ShowsAs(content: Content, blocks: seq<Block>) {
    match content
    case Absent => blocks == []
    case Text(text) => blocks == [TextBlock(text)]
    case Blocks(all) =>
      && |blocks| == |all|
      && forall i :: 0 <= i < |all| ==>
           blocks[i] == if all[i].RawItem? then TextBlock(all[i].repr) else all[i]
  }

  function Width(content: Content): nat {
    match content
    case Absent => 0
    case Text(_) => 1
    case Blocks(blocks) => |blocks|
  }

  /** Two texts are two paragraphs; anything else is the left one's blocks followed by the right one's. */
  predicate ShowsBoth(left: Content, right: Content, merged: Content) {
    if left.Text? && right.Text? then
      merged == Text(if left.text != "" then left.text + "\n\n" + right.text else right.text)
    else
      && merged.Blocks? && |merged.blocks| == Width(left) + Width(right)
      && ShowsAs(left, merged.blocks[..Width(left)])
      && ShowsAs(right, merged.blocks[Width(left)..])
  }

  lemma MergedShowsBoth(left: Content, right: Content)
    ensures ShowsBoth(left, right, MergeContent(left, right))
  {
    var (a, b) := (TextBlocksOf(left), TextBlocksOf(right));
    assert |a| == Width(left) && (a + b)[..|a|] == a && (a + b)[|a|..] == b;
    if !(left.Text? && right.Text?) { assert MergeContent(left, right) == Blocks(a + b); }
  }

  /** The contexts one after the other; next to text two texts become two paragraphs of one. */
  predicate CarriesBoth(l: Detached, r: Detached, context: seq<Block>) {
    if l.visible.Text? && r.visible.Text? && l.context != [] && r.context != [] then
      && |l.context| == |r.context| == 1 && l.context[0].TextBlock? && r.context[0].TextBlock?
      && context == [TextBlock(l.context[0].text + "\n\n" + r.context[0].text)]
    else context == l.context + r.context
  }

  lemma RejoinedShowsBoth(l: Detached, r: Detached)
    requires NamedContext(l) && NamedContext(r)
    ensures ShowsBoth(l.visible, r.visible, Rejoined(l, r).visible)
    ensures CarriesBoth(l, r, Rejoined(l, r).context)
  {
    MergedShowsBoth(l.visible, r.visible);
    hide MergeContent, ShowsBoth;
    if l.visible.Text? && r.visible.Text? && l.context != [] && r.context != [] {
      var (a, b) := (l.context[0], r.context[0]);
      assert l.context + r.context == [a, b] && Texts([a, b]) == [a.text, b.text];
      JoinOfTwo(a.text, b.text);
    }
  }

  lemma RejoinedComesOff(l: Detached, r: Detached)
    requires NamedContext(l) && NamedContext(r) && l.context + r.context != []
    requires NonEmpty(l.sources) == l.sources && NonEmpty(r.sources) == r.sources
    ensures var (content, marker) :=
              Reattach(MergeContent(l.visible, r.visible), l.sources + r.sources, l.context + r.context);
            Detach(content, marker) == Some(Rejoined(l, r))
  {
    var visible, context := MergeContent(l.visible, r.visible), l.context + r.context;
    NonEmptyAppend(l.sources, r.sources);
    DetachUndoesReattach(visible, l.sources + r.sources, context);
    hide Detach, Reattach, NonEmpty, Join, WithSuffix, TextBlocksOf;
    if visible.Text? {
      assert AllText(context) && Texts(context)[0] != "";
      JoinIsNotEmpty(Texts(context));
      if |context| == 1 { assert [TextBlock(Join(Texts(context)))] == context; }
    }
  }

  /** Next to a visible text stands no context, or one non-empty text. */
  predicate NamedContext(d: Detached) {
    d.visible.Text? ==>
      d.context == [] || (|d.context| == 1 && d.context[0].TextBlock? && d.context[0].text != "")
  }

  lemma ContextIsNamed(m: Message)
    requires View(m).Some?
    ensures NamedContext(View(m).value)
    ensures View(m).value.context == [] ==> MarkerOf(m).None?
  {
    if MarkerOf(m).Some? { DetachShape(m.content, MarkerOf(m).value); }
  }

  /** Two readable messages merge into a readable one that shows both and carries both contexts. */
  lemma MergeTwoIsReversible(left: Message, right: Message)
    requires View(left).Some? && View(right).Some?
    ensures View(MergeTwo(left, right)).Some?
    ensures var (l, r) := (View(left).value, View(right).value);
            var d := View(MergeTwo(left, right)).value;
            && ShowsBoth(l.visible, r.visible, d.visible)
            && d.sources == l.sources + r.sources
            && CarriesBoth(l, r, d.context)
  {
    MergeTwoRejoins(left, right);
    ContextIsNamed(left);
    ContextIsNamed(right);
    RejoinedShowsBoth(View(left).value, View(right).value);
  }

  /** Where one of two messages has a marker that does not fit, the contents are merged as they stand. */
  lemma UnreadableAreMergedWhole(left: Message, right: Message)
    requires View(left).None? || View(right).None?
    ensures MergeTwo(left, right) == left.(content := MergeTwo(left, right).content)
    ensures ShowsBoth(left.content, right.content, MergeTwo(left, right).content)
  {
    MergedShowsBoth(left.content, right.content);
  }

  /** Apart from content and metadata the merger is the left message; the metadata change only for context. */
  lemma MergerIsTheLeftOne(left: Message, right: Message)
    ensures var m := MergeTwo(left, right); m == left.(content := m.content, meta := m.meta)
    ensures View(left).Some? && View(right).Some? && View(left).value.context + View(right).value.context != [] ==>
              var meta := MergeTwo(left, right).meta;
              && meta.Some?
              && (meta.value.boundary <==>
                    (left.meta.Some? && left.meta.value.boundary) || (right.meta.Some? && right.meta.value.boundary))
              && forall k :: k in meta.value.entries ==>
                   if left.meta.Some? && k in left.meta.value.entries then
                     meta.value.entries[k] == left.meta.value.entries[k]
                   else
                     && right.meta.Some? && k in right.meta.value.entries
                     && meta.value.entries[k] == right.meta.value.entries[k]
    ensures View(left).None? || View(right).None? || View(left).value.context + View(right).value.context == [] ==>
              MergeTwo(left, right).meta == left.meta
  {
    hide View, MergeContent, Reattach;
  }

  lemma MergeTwoRejoins(left: Message, right: Message)
    requires View(left).Some? && View(right).Some?
    ensures View(MergeTwo(left, right)) == Some(Rejoined(View(left).value, View(right).value))
  {
    var (l, r) := (View(left).value, View(right).value);
    ContextIsNamed(left);
    ContextIsNamed(right);
    SourcesAreNonEmpty(left);
    SourcesAreNonEmpty(right);
    hide Detach, Reattach, MergeContent, NonEmpty;
    if l.context + r.context != [] {
      RejoinedComesOff(l, r);
    } else {
      assert l.context == [] && r.context == [];
      assert MergeTwo(left, right) == left.(content := MergeContent(l.visible, r.visible));
      assert l.sources + r.sources == [];
    }
  }

  /** What a run shows is what it showed without its last message, and then that message. */
  lemma RunShowsEach(run: seq<Message>, m: Message)
    requires View(m).Some? && forall x :: x in run ==> View(x).Some?
    ensures run == [] ==> VisibleOf(run + [m]) == View(m).value.visible
    ensures run != [] ==> ShowsBoth(VisibleOf(run), View(m).value.visible, VisibleOf(run + [m]))
  {
    hide View, MergeContent, ShowsBoth;
    if run != [] {
      assert (run + [m])[..|run|] == run;
      MergedShowsBoth(VisibleOf(run), View(m).value.visible);
    }
  }

  predicate ShowsText(m: Message) {
    View(m).Some? && View(m).value.visible.Text?
  }

  predicate AllShowText(run: seq<Message>) {
    forall m :: m in run ==> View(m).Some? && View(m).value.visible.Text?
  }

  function TextOf(m: Message): string {
    if ShowsText(m) then View(m).value.visible.text else ""
  }

  /** The visible texts of a run. */
  function TextsOf(run: seq<Message>): seq<string> {
    seq(|run|, i requires 0 <= i < |run| => TextOf(run[i]))
  }

  /** A run of texts shows all of them as paragraphs, from the first one on that is not empty. */
  lemma {:induction false} RunOfTextsShowsAll(run: seq<Message>) returns (first: nat)
    requires run != [] && AllShowText(run)
    ensures first < |run| && forall i :: 0 <= i < first ==> TextOf(run[i]) == ""
    ensures first < |run| - 1 ==> TextOf(run[first]) != ""
    ensures ShowsText(FoldRun(run)) && TextOf(FoldRun(run)) == Join(TextsOf(run)[first..])
  {
    MergeIsReversible(run);
    first := RunOfTexts(run);
  }

  lemma {:induction false} RunOfTexts(run: seq<Message>) returns (first: nat)
    requires run != [] && AllShowText(run)
    ensures first < |run| && forall i :: 0 <= i < first ==> TextOf(run[i]) == ""
    ensures first < |run| - 1 ==> TextOf(run[first]) != ""
    ensures VisibleOf(run) == Text(Join(TextsOf(run)[first..]))
  {
    hide View, Join, MergeContent;
    var k := |run| - 1;
    var (before, m) := (run[..k], run[k]);
    assert run == before + [m] && m in run;
    assert forall x :: x in before ==> x in run;
    RunShowsEach(before, m);
    JoinAddsParagraph([], TextOf(m));
    if k == 0 {
      first := 0;
      assert before == [] && TextsOf(run)[0..] == [TextOf(m)];
    } else {
      first := RunOfTexts(before);
      first := OneMoreText(before, m, first);
    }
  }

  /** What the next text does to the paragraphs of the run before it. */
  lemma OneMoreText(before: seq<Message>, m: Message, was: nat) returns (first: nat)
    requires was < |before| && (forall i :: 0 <= i < was ==> TextOf(before[i]) == "")
    requires was < |before| - 1 ==> TextOf(before[was]) != ""
    ensures var run := before + [m];
            && first < |run| && (forall i :: 0 <= i < first ==> TextOf(run[i]) == "")
            && (first < |run| - 1 ==> TextOf(run[first]) != "")
            && var shown := Join(TextsOf(before)[was..]);
               Join(TextsOf(run)[first..]) == if shown != "" then shown + "\n\n" + TextOf(m) else TextOf(m)
  {
    hide TextOf;
    var (run, shown) := (before + [m], TextsOf(before)[was..]);
    JoinAddsParagraph(shown, TextOf(m));
    JoinedIsEmptyIff(shown);
    assert TextsOf(run) == TextsOf(before) + [TextOf(m)];
    if Join(shown) == "" {
      first := |before|;
      assert TextsOf(run)[first..] == [TextOf(m)];
    } else {
      first := was;
      assert TextsOf(run)[first..] == shown + [TextOf(m)];
    }
  }

  predicate AllNonEmpty(texts: seq<string>) {
    forall i :: 0 <= i < |texts| ==> texts[i] != ""
  }

  /** Leaving out empty texts shortens the paragraphs, as each of them is a blank line. */
  lemma {:induction false} NonEmptyIsShorter(texts: seq<string>)
    requires texts != [] && texts[0] != ""
    ensures NonEmpty(texts) != [] && |Join(NonEmpty(texts))| <= |Join(texts)|
    ensures |Join(NonEmpty(texts))| == |Join(texts)| <==> AllNonEmpty(texts)
  {
    hide Join, NonEmpty;
    var (before, last) := (texts[..|texts| - 1], texts[|texts| - 1]);
    assert texts == before + [last];
    NonEmptyOneByOne(before, last);
    JoinAddsParagraph(before, last);
    if before == [] {
      assert texts == [last] && NonEmpty(texts) == [last];
    } else {
      NonEmptyIsShorter(before);
      JoinAddsParagraph(NonEmpty(before), last);
      if last != "" {
        assert AllNonEmpty(texts) <==> AllNonEmpty(before);
        assert |Join(NonEmpty(texts))| == |Join(NonEmpty(before))| + 2 + |last|;
      } else {
        assert texts[|before|] == "";
        assert NonEmpty(texts) == NonEmpty(before);
      }
    }
  }

  /** The paragraphs from the first non-empty text on are the non-empty ones exactly if no empty one follows it. */
  lemma ParagraphsAreNonEmptyIff(texts: seq<string>, first: nat)
    requires first < |texts| && (forall i :: 0 <= i < first ==> texts[i] == "")
    requires first < |texts| - 1 ==> texts[first] != ""
    ensures Join(texts[first..]) == Join(NonEmpty(texts)) <==>
              forall i, j :: 0 <= i < j < |texts| && texts[i] != "" ==> texts[j] != ""
  {
    hide Join, NonEmpty;
    var shown := texts[first..];
    assert texts == texts[..first] + shown;
    NothingShown(texts[..first]);
    NonEmptyAppend(texts[..first], shown);
    assert NonEmpty(texts) == NonEmpty(shown);
    JoinAddsParagraph([], shown[0]);
    if shown[0] == "" {
      assert shown == [""];
      NothingShown(shown);
      JoinOfNone();
    } else {
      NonEmptyIsShorter(shown);
      if AllNonEmpty(shown) { NothingFiltered(shown); }
      assert texts[first] == shown[0];
      assert forall j :: first < j < |texts| ==> texts[j] == shown[j - first];
      assert AllNonEmpty(shown) <==> forall j :: first < j < |texts| ==> texts[j] != "";
    }
  }

  /**
   What a run of texts shows is the non-empty ones as paragraphs exactly if none of them is empty behind one that is
   not: an empty message behind a text is shown as a blank line.
   */
  lemma RunShowsNonEmptyIff(run: seq<Message>)
    requires run != [] && AllShowText(run)
    ensures TextOf(FoldRun(run)) == Join(NonEmpty(TextsOf(run))) <==>
              forall i, j :: 0 <= i < j < |run| && TextOf(run[i]) != "" ==> TextOf(run[j]) != ""
  {
    var first := RunOfTextsShowsAll(run);
    hide TextOf, Join, NonEmpty, AllShowText, FoldRun;
    var texts := TextsOf(run);
    assert forall i :: 0 <= i < |run| ==> texts[i] == TextOf(run[i]);
    ParagraphsAreNonEmptyIff(texts, first);
  }

  lemma JoinOfNone()
    ensures Join([]) == ""
  {
  }

  lemma {:induction false} NothingShown(texts: seq<string>)
    requires forall i :: 0 <= i < |texts| ==> texts[i] == ""
    ensures NonEmpty(texts) == []
  {
    if texts != [] { NothingShown(texts[1..]); }
  }

  lemma JoinedIsEmptyIff(texts: seq<string>)
    requires texts != [] && (|texts| > 1 ==> texts[0] != "")
    ensures Join(texts) == "" <==> |texts| == 1 && texts[0] == ""
  {
  }

  lemma SourcesAreNonEmpty(m: Message)
    requires View(m).Some?
    ensures NonEmpty(View(m).value.sources) == View(m).value.sources
    ensures View(m).value.context == [] ==> View(m).value.sources == []
  {
    if MarkerOf(m).Some? {
      DetachShape(m.content, MarkerOf(m).value);
      NonEmptyTwice(MarkerOf(m).value.sources);
    }
  }

  /** However many readable messages are merged, the visible contents, sources and contexts can all be read back. */
  lemma {:induction false} MergeIsReversible(run: seq<Message>)
    requires run != [] && forall m :: m in run ==> View(m).Some?
    ensures View(FoldRun(run)).Some?
    ensures var d := View(FoldRun(run)).value;
            && d.visible == VisibleOf(run) && d.sources == SourcesIn(run) && SameContext(d.context, ContextIn(run))
  {
    hide View, MergeContent, MergeTwo, SameContext, NamedContext;
    var k := |run| - 1;
    if k == 0 {
      FoldOfOne(run);
      OneInRun(run);
      ContextIsSame(ContextIn(run));
    } else {
      var before := run[..k];
      var left := FoldRun(before);
      MergeIsReversible(before);
      MergeTwoRejoins(left, run[k]);
      ContextIsNamed(left);
      ContextIsNamed(run[k]);
      ContextsJoin(View(left).value, View(run[k]).value, ContextIn(before));
    }
  }

  lemma OneInRun(run: seq<Message>)
    requires |run| == 1 && View(run[0]).Some?
    ensures ContextIn(run) == View(run[0]).value.context && SourcesIn(run) == View(run[0]).value.sources
  {
    hide View;
    assert SourcesIn(run[..0]) == [] && ContextIn(run[..0]) == [];
    assert [] + View(run[0]).value.sources == View(run[0]).value.sources;
  }

  lemma ContextIsSame(blocks: seq<Block>)
    ensures SameContext(blocks, blocks)
  {
    if blocks != [] { assert JoinsFirst(blocks, blocks, 1); }
  }

  lemma TextContextsJoin(left: seq<Block>, right: seq<Block>, blocks: seq<Block>, n: nat)
    requires JoinsFirst(left, blocks, n) && |left| == |right| == 1 && AllText(left) && AllText(right)
    ensures SameContext([TextBlock(Join(Texts(left + right)))], blocks + right)
  {
    var all, a, b := blocks + right, left[0].text, right[0].text;
    assert AllText(blocks) && Join(Texts(blocks)) == a by {
      if left != blocks { assert blocks[n..] == [] && blocks[..n] == blocks; }
    }
    JoinAppend(Texts(blocks), [b]);
    assert Texts(all) == Texts(blocks) + [b];
    JoinOfTwo(a, b);
    assert Texts(left + right) == [a, b];
    assert all[..|all|] == all && all[|all|..] == [];
    assert JoinsFirst([TextBlock(Join([a, b]))], all, |all|);
  }

  lemma ContextsJoin(l: Detached, r: Detached, blocks: seq<Block>)
    requires NamedContext(l) && NamedContext(r) && SameContext(l.context, blocks)
    ensures SameContext(Rejoined(l, r).context, blocks + r.context)
  {
    hide MergeContent, AllText, Texts, Join;
    if blocks == [] {
      assert blocks + r.context == r.context && l.context + r.context == r.context;
      assert Rejoined(l, r).context == r.context by { assert |r.context| <= 1 || !r.visible.Text?; }
      if r.context != [] { assert JoinsFirst(r.context, r.context, 1); }
    } else {
      var n: nat :| JoinsFirst(l.context, blocks, n);
      if l.visible.Text? && r.visible.Text? && |l.context + r.context| == 2 {
        assert AllText(l.context) && AllText(r.context) && AllText(l.context + r.context) by {
          assert l.context[0].TextBlock? && r.context[0].TextBlock?;
          BothAreText(l.context[0], r.context[0]);
          assert l.context == [l.context[0]] && r.context == [r.context[0]];
          assert l.context + r.context == [l.context[0], r.context[0]];
        }
        TextContextsJoin(l.context, r.context, blocks, n);
      } else {
        StillJoinsFirst(l.context, r.context, blocks, n);
      }
    }
  }

  lemma BothAreText(a: Block, b: Block)
    requires a.TextBlock? && b.TextBlock?
    ensures AllText([a]) && AllText([b]) && AllText([a, b])
  {
  }

  lemma StillJoinsFirst(left: seq<Block>, right: seq<Block>, blocks: seq<Block>, n: nat)
    requires JoinsFirst(left, blocks, n)
    ensures JoinsFirst(left + right, blocks + right, n)
  {
    assert (blocks + right)[..n] == blocks[..n] && (blocks + right)[n..] == blocks[n..] + right;
  }
}
