/**
 Runtime context appended to the user's prompt, with the marker that lets it be
 taken off again exactly.
 */
module RuntimeContext {
  import opened Wrappers
  import opened Strings

  /** One item of a content list: a text block, another block, or something that is not a mapping. */
  datatype Block = TextBlock(text: string) | DictBlock(tag: string) | RawItem(repr: string)

  datatype Content = Absent | Text(text: string) | Blocks(blocks: seq<Block>)

  datatype ContextBlock = ContextBlock(source: string, content: string)

  datatype Marker = Marker(version: int, sources: seq<string>, suffix: Option<string>, blocks: Option<seq<Block>>)

  /** Visible content, context sources, context blocks. */
  datatype Detached = Detached(visible: Content, sources: seq<string>, context: seq<Block>)

  function Rendered(blocks: seq<ContextBlock>): seq<string> {
    seq(|blocks|, i requires 0 <= i < |blocks| => blocks[i].content)
  }

  function SourcesOf(blocks: seq<ContextBlock>): seq<string> {
    seq(|blocks|, i requires 0 <= i < |blocks| => blocks[i].source)
  }

  function TextBlocks(texts: seq<string>): seq<Block> {
    seq(|texts|, i requires 0 <= i < |texts| => TextBlock(texts[i]))
  }

  function NonEmpty(sources: seq<string>): seq<string> {
    if sources == [] then []
    else (if sources[0] != "" then [sources[0]] else []) + NonEmpty(sources[1..])
  }

  function WithSuffix(text: string, suffix: string): string {
    if text != "" then text + GAP + suffix else suffix
  }

  predicate EndsWith(s: string, tail: string) {
    |s| >= |tail| && s[|s| - |tail|..] == tail
  }

  // ----- the four operations ----------------------------------------------------

  function Append(content: Content, blocks: seq<ContextBlock>): (Content, Option<Marker>) {
    if blocks == [] then (content, None)
    else if content.Blocks? then
      var context := TextBlocks(Rendered(blocks));
      (Blocks(content.blocks + context), Some(Marker(1, SourcesOf(blocks), None, Some(context))))
    else
      var suffix := Join(Rendered(blocks));
      (Text(WithSuffix(if content.Absent? then "" else content.text, suffix)),
       Some(Marker(1, SourcesOf(blocks), Some(suffix), None)))
  }

  /** Taking the tail off: `None` when the marker does not describe the end of the content. */
  function Detach(content: Content, marker: Marker): Option<Detached> {
    if marker.version != 1 then None
    else
      var sources := NonEmpty(marker.sources);
      if content.Text? && marker.suffix.Some? && marker.suffix.value != "" then
        var suffix := marker.suffix.value;
        if content.text == suffix then Some(Detached(Text(""), sources, [TextBlock(suffix)]))
        else if EndsWith(content.text, GAP + suffix) then
          Some(Detached(Text(content.text[..|content.text| - |suffix| - 2]), sources, [TextBlock(suffix)]))
        else None
      else if content.Blocks? && marker.blocks.Some? && marker.blocks.value != [] then
        var (n, expected) := (|content.blocks|, marker.blocks.value);
        if n < |expected| || content.blocks[n - |expected|..] != expected then None
        else Some(Detached(Blocks(content.blocks[..n - |expected|]), sources, expected))
      else None
  }

  predicate AllText(blocks: seq<Block>) {
    forall i :: 0 <= i < |blocks| ==> blocks[i].TextBlock?
  }

  function Texts(blocks: seq<Block>): seq<string>
    requires AllText(blocks)
  {
    seq(|blocks|, i requires 0 <= i < |blocks| => blocks[i].text)
  }

  function Reattach(content: Content, sources: seq<string>, blocks: seq<Block>): (Content, Marker) {
    if content.Text? && AllText(blocks) then
      var suffix := Join(Texts(blocks));
      (Text(WithSuffix(content.text, suffix)), Marker(1, sources, Some(suffix), None))
    else
      var visible := if content.Blocks? then content.blocks
                     else if content.Absent? then [] else [TextBlock(content.text)];
      (Blocks(visible + blocks), Marker(1, sources, None, Some(blocks)))
  }

  /** The content `public_history_message` shows for a persisted message. */
  function PublicContent(content: Content, marker: Option<Marker>): Content {
    if marker.None? || marker.value.version != 1 then content
    else
      var m := marker.value;
      if content.Text? && m.suffix.Some? && m.suffix.value != "" then
        if content.text == m.suffix.value then Text("")
        else if EndsWith(content.text, GAP + m.suffix.value) then
          Text(content.text[..|content.text| - |m.suffix.value| - 2])
        else content
      else if content.Blocks? && m.blocks.Some? && m.blocks.value != [] then
        var (n, expected) := (|content.blocks|, m.blocks.value);
        if n >= |expected| && content.blocks[n - |expected|..] == expected then
          Blocks(content.blocks[..n - |expected|])
        else content
      else content
  }

  datatype ContextError = EmptySource

  /** Blocks are stripped; one without a source is refused, one without content is left out. */
  function Normalize(blocks: seq<ContextBlock>): Result<seq<ContextBlock>, ContextError> {
    if blocks == [] then Success([])
    else
      var (source, content) := (Strip(blocks[0].source), Strip(blocks[0].content));
      if source == "" then Failure(EmptySource)
      else
        match Normalize(blocks[1..])
        case Failure(e) => Failure(e)
        case Success(rest) =>
          Success((if content != "" then [ContextBlock(source, content)] else []) + rest)
  }

  // ----- taking off is the inverse of putting on ----------------------------------

  /** What remains of a content once context was put on it and taken off: `None` has become "". */
  function Plain(content: Content): Content {
    if content.Absent? then Text("") else content
  }

  lemma SuffixComesOff(text: string, suffix: string)
    requires suffix != ""
    ensures var s := WithSuffix(text, suffix);
            && (s == suffix <==> text == "")
            && (text != "" ==> EndsWith(s, GAP + suffix) && s[..|s| - |suffix| - 2] == text)
  {
    var s := WithSuffix(text, suffix);
    if text != "" {
      assert |s| > |suffix|;
      assert s == text + (GAP + suffix);
    }
  }

  /** The same in terms of the rendered texts: what was put on comes off. */
  lemma AppendComesOff(content: Content, blocks: seq<ContextBlock>)
    requires blocks != []
    ensures var (merged, marker) := Append(content, blocks);
            var context := if content.Blocks? then TextBlocks(Rendered(blocks))
                           else [TextBlock(Join(Rendered(blocks)))];
            Detach(merged, marker.value) ==
              if content.Blocks? || Join(Rendered(blocks)) != "" then
                Some(Detached(Plain(content), NonEmpty(SourcesOf(blocks)), context))
              else None
  {
    if content.Blocks? {
      var context := TextBlocks(Rendered(blocks));
      assert (content.blocks + context)[|content.blocks|..] == context;
      assert (content.blocks + context)[..|content.blocks|] == content.blocks;
    } else if Join(Rendered(blocks)) != "" {
      SuffixComesOff(if content.Absent? then "" else content.text, Join(Rendered(blocks)));
    }
  }

  // ----- what a content looks like with context on it ---------------------------------

  /** A list keeps its blocks and gets one text block for each context block: that block's content. */
  predicate ListGets(blocks: seq<Block>, context: seq<ContextBlock>, merged: Content, marker: Marker) {
    && merged.Blocks? && |merged.blocks| == |blocks| + |context|
    && (forall i :: 0 <= i < |blocks| ==> merged.blocks[i] == blocks[i])
    && (forall i :: 0 <= i < |context| ==> merged.blocks[|blocks| + i] == TextBlock(context[i].content))
    && marker.suffix == None && marker.blocks == Some(merged.blocks[|blocks|..])
  }

  /** The marker has the blocks' sources. */
  predicate MarkedAs(marker: Marker, context: seq<ContextBlock>) {
    && marker.version == 1 && |marker.sources| == |context|
    && forall i :: 0 <= i < |context| ==> marker.sources[i] == context[i].source
  }

  lemma AppendedToList(blocks: seq<Block>, context: seq<ContextBlock>)
    requires context != []
    ensures var (merged, marker) := Append(Blocks(blocks), context);
            marker.Some? && MarkedAs(marker.value, context) && ListGets(blocks, context, merged, marker.value)
  {
    var (merged, marker) := Append(Blocks(blocks), context);
    assert merged.blocks[|blocks|..] == TextBlocks(Rendered(context));
    forall i | 0 <= i < |context| ensures merged.blocks[|blocks| + i] == TextBlock(context[i].content) {
    }
  }

  /** One block is a paragraph behind the text, or all of it where there was no text. */
  lemma AppendedToText(content: Content, block: ContextBlock)
    requires !content.Blocks?
    ensures var (merged, marker) := Append(content, [block]);
            && merged == Text(if content.Absent? || content.text == "" then block.content
                              else content.text + "\n\n" + block.content)
            && marker == Some(Marker(1, [block.source], Some(block.content), None))
  {
    assert Rendered([block]) == [block.content] && SourcesOf([block]) == [block.source];
    JoinAddsParagraph([], block.content);
  }

  /** Every further block is one more paragraph, of the text and of the suffix alike. */
  lemma EachBlockAddsParagraph(content: Content, blocks: seq<ContextBlock>, block: ContextBlock)
    requires !content.Blocks? && blocks != []
    ensures var (before, first) := Append(content, blocks);
            var (after, marker) := Append(content, blocks + [block]);
            && before.Text? && first.Some? && first.value.suffix.Some?
            && after == Text(before.text + "\n\n" + block.content)
            && marker == Some(Marker(1, first.value.sources + [block.source],
                                     Some(first.value.suffix.value + "\n\n" + block.content), None))
  {
    JoinAddsParagraph(Rendered(blocks), block.content);
    assert Rendered(blocks + [block]) == Rendered(blocks) + [block.content];
    assert SourcesOf(blocks + [block]) == SourcesOf(blocks) + [block.source];
    var text := if content.Absent? then "" else content.text;
    assert text + GAP + (Join(Rendered(blocks)) + GAP + block.content)
        == (text + GAP + Join(Rendered(blocks))) + GAP + block.content;
  }

  /** Sources that are the empty text are left out, one by one. */
  lemma NonEmptyOneByOne(sources: seq<string>, source: string)
    ensures NonEmpty([]) == []
    ensures NonEmpty(sources + [source]) == NonEmpty(sources) + if source != "" then [source] else []
  {
    NonEmptyAppend(sources, [source]);
    assert NonEmpty([source]) == if source != "" then [source] else [];
  }

  lemma {:induction false} NonEmptyAppend(a: seq<string>, b: seq<string>)
    ensures NonEmpty(a + b) == NonEmpty(a) + NonEmpty(b)
  {
    if a == [] { assert a + b == b; } else {
      assert (a + b)[1..] == a[1..] + b;
      NonEmptyAppend(a[1..], b);
    }
  }

  /** There is something to recognise: a list always has its blocks, a text needs more than one empty paragraph. */
  predicate Recognisable(content: Content, blocks: seq<ContextBlock>) {
    content.Blocks? || |blocks| > 1 || (|blocks| == 1 && blocks[0].content != "")
  }

  lemma RecognisableIff(content: Content, blocks: seq<ContextBlock>)
    requires blocks != []
    ensures Recognisable(content, blocks) <==> content.Blocks? || Join(Rendered(blocks)) != ""
  {
    if |blocks| == 1 {
      assert Rendered(blocks) == [blocks[0].content];
    } else {
      assert |Join(Rendered(blocks))| >= 2;
    }
  }

  /** What was put on a content, read off the detached parts: the blocks' contents, or what is behind the text. */
  predicate CarriesContext(content: Content, merged: Content, blocks: seq<ContextBlock>, context: seq<Block>) {
    if content.Blocks? then
      |context| == |blocks| && forall i :: 0 <= i < |blocks| ==> context[i] == TextBlock(blocks[i].content)
    else
      && |context| == 1 && context[0].TextBlock? && merged.Text?
      && merged.text == if content.Absent? || content.text == "" then context[0].text
                        else content.text + "\n\n" + context[0].text
  }

  /**
   Detaching undoes appending, for every content and every blocks, exactly when there is
   something to recognise; what comes off is what was put on.
   */
  lemma DetachUndoesAppend(content: Content, blocks: seq<ContextBlock>)
    requires blocks != []
    ensures var (merged, marker) := Append(content, blocks);
            && marker.Some? && MarkedAs(marker.value, blocks)
            && (Detach(merged, marker.value).Some? <==> Recognisable(content, blocks))
            && (Recognisable(content, blocks) ==>
                  var d := Detach(merged, marker.value).value;
                  && d.visible == Plain(content) && d.sources == NonEmpty(marker.value.sources)
                  && CarriesContext(content, merged, blocks, d.context))
  {
    AppendComesOff(content, blocks);
    RecognisableIff(content, blocks);
  }

  /** The public view of an appended message is the message before. */
  lemma PublicUndoesAppend(content: Content, blocks: seq<ContextBlock>)
    requires blocks != [] && Recognisable(content, blocks)
    ensures var (merged, marker) := Append(content, blocks); PublicContent(merged, marker) == Plain(content)
  {
    DetachUndoesAppend(content, blocks);
    var (merged, marker) := Append(content, blocks);
    PublicShowsTheDetached(merged, marker.value);
  }

  /** Text put back behind a text: a paragraph, or all there is; each further text is one more paragraph. */
  lemma ReattachedToText(text: string, sources: seq<string>, blocks: seq<Block>, last: string)
    requires AllText(blocks)
    ensures var (merged, marker) := Reattach(Text(text), sources, blocks + [TextBlock(last)]);
            if blocks == [] then
              && merged == Text(if text == "" then last else text + "\n\n" + last)
              && marker == Marker(1, sources, Some(last), None)
            else
              var (before, first) := Reattach(Text(text), sources, blocks);
              && before.Text? && first.suffix.Some?
              && merged == Text(before.text + "\n\n" + last)
              && marker == Marker(1, sources, Some(first.suffix.value + "\n\n" + last), None)
  {
    var all := blocks + [TextBlock(last)];
    assert Texts(all) == Texts(blocks) + [last];
    JoinAddsParagraph(Texts(blocks), last);
    var joined := Join(Texts(blocks));
    assert text + GAP + (joined + GAP + last) == (text + GAP + joined) + GAP + last;
    if blocks == [] { assert all == [TextBlock(last)] && Texts(all) == [last]; }
  }

  /** Elsewhere the blocks are put back one by one behind the content, a text being one block. */
  lemma ReattachedToList(content: Content, sources: seq<string>, blocks: seq<Block>)
    requires !content.Text? || exists b :: b in blocks && !b.TextBlock?
    ensures var (merged, marker) := Reattach(content, sources, blocks);
            && merged.Blocks? && marker == Marker(1, sources, None, Some(blocks))
            && |merged.blocks| >= |blocks| && merged.blocks[|merged.blocks| - |blocks|..] == blocks
            && var front := merged.blocks[..|merged.blocks| - |blocks|];
               match content
               case Absent => front == []
               case Text(text) => front == [TextBlock(text)]
               case Blocks(all) => front == all
  {
    var (merged, _) := Reattach(content, sources, blocks);
    var n := |merged.blocks| - |blocks|;
    assert merged.blocks == merged.blocks[..n] + blocks;
  }

  // ----- what a marker recognises ------------------------------------------------------

  /** The content is the visible part with the marker's suffix, or the marker's blocks, behind it. */
  predicate EndsAsMarked(content: Content, marker: Marker, visible: Content, context: seq<Block>) {
    if content.Text? then
      && marker.suffix.Some? && marker.suffix.value != "" && context == [TextBlock(marker.suffix.value)]
      && visible.Text?
      && (content.text == visible.text + "\n\n" + marker.suffix.value
          || (content.text == marker.suffix.value && visible.text == ""))
    else
      && content.Blocks? && visible.Blocks? && context != []
      && marker.blocks == Some(context) && content.blocks == visible.blocks + context
  }

  /** Detaching succeeds exactly on contents that end as the marker says, and gives the two parts. */
  lemma DetachesIff(content: Content, marker: Marker, d: Detached)
    ensures Detach(content, marker) == Some(d) <==>
              && marker.version == 1 && d.sources == NonEmpty(marker.sources)
              && EndsAsMarked(content, marker, d.visible, d.context)
  {
    if content.Text? && marker.suffix.Some? {
      var tail := GAP + marker.suffix.value;
      if EndsWith(content.text, tail) { TailOfText(content.text, tail); }
      if d.visible.Text? {
        TailIsCutOff(d.visible.text, tail);
        assert d.visible.text + tail == d.visible.text + "\n\n" + marker.suffix.value;
      }
    } else if content.Blocks? && marker.blocks.Some? {
      var (n, tail) := (|content.blocks|, marker.blocks.value);
      if n >= |tail| && content.blocks[n - |tail|..] == tail { TailOfList(content.blocks, tail); }
      if d.visible.Blocks? {
        assert (d.visible.blocks + d.context)[|d.visible.blocks|..] == d.context;
        assert (d.visible.blocks + d.context)[..|d.visible.blocks|] == d.visible.blocks;
      }
    }
  }

  lemma TailOfText(text: string, tail: string)
    requires EndsWith(text, tail)
    ensures text == text[..|text| - |tail|] + tail
  {
  }

  lemma TailIsCutOff(text: string, tail: string)
    ensures EndsWith(text + tail, tail) && (text + tail)[..|text|] == text
  {
  }

  lemma TailOfList(blocks: seq<Block>, tail: seq<Block>)
    requires |blocks| >= |tail| && blocks[|blocks| - |tail|..] == tail
    ensures blocks == blocks[..|blocks| - |tail|] + tail
  {
  }

  /** Wherever a marker can be detached, the public view is what remains; elsewhere nothing is removed. */
  lemma PublicShowsTheDetached(content: Content, marker: Marker)
    ensures PublicContent(content, Some(marker)) ==
              match Detach(content, marker) case Some(d) => d.visible case None => content
  {
  }

  /** Putting detached context back and detaching it again loses nothing but the gaps between joined texts. */
  lemma DetachUndoesReattach(content: Content, sources: seq<string>, blocks: seq<Block>)
    requires blocks != []
    ensures var (merged, marker) := Reattach(content, sources, blocks);
            Detach(merged, marker) ==
              if content.Text? && AllText(blocks) then
                if Join(Texts(blocks)) == "" then None
                else Some(Detached(content, NonEmpty(sources), [TextBlock(Join(Texts(blocks)))]))
              else
                Some(Detached(Blocks(if content.Blocks? then content.blocks
                                     else if content.Absent? then [] else [TextBlock(content.text)]),
                              NonEmpty(sources), blocks))
  {
    var (merged, marker) := Reattach(content, sources, blocks);
    if content.Text? && AllText(blocks) {
      if Join(Texts(blocks)) != "" { SuffixComesOff(content.text, Join(Texts(blocks))); }
    } else {
      var visible := merged.blocks[..|merged.blocks| - |blocks|];
      assert merged.blocks == visible + blocks;
      assert merged.blocks[|visible|..] == blocks;
    }
  }

  lemma {:induction false} JoinIsNotEmpty(texts: seq<string>)
    requires texts != [] && texts[0] != ""
    ensures Join(texts) != ""
  {
  }

  lemma {:induction false} NormalizedBlocksHaveText(blocks: seq<ContextBlock>)
    requires Normalize(blocks).Success?
    ensures forall i :: 0 <= i < |Normalize(blocks).value| ==>
              Normalize(blocks).value[i].source != "" && Normalize(blocks).value[i].content != ""
  {
    if blocks != [] { NormalizedBlocksHaveText(blocks[1..]); }
  }

  lemma {:induction false} NothingFiltered(sources: seq<string>)
    requires forall i :: 0 <= i < |sources| ==> sources[i] != ""
    ensures NonEmpty(sources) == sources
  {
    if sources != [] {
      NothingFiltered(sources[1..]);
      assert sources == [sources[0]] + sources[1..];
    }
  }

  /** Nothing is normalized to nothing. */
  lemma NothingNormalized()
    ensures Normalize([]) == Success([])
  {
  }

  /** Another block, in the order of the providers: refused without a source, skipped without content. */
  lemma {:induction false} NormalizeOneMore(blocks: seq<ContextBlock>, block: ContextBlock)
    ensures Normalize(blocks + [block]).Success? <==> Normalize(blocks).Success? && Strip(block.source) != ""
    ensures Normalize(blocks + [block]).Success? ==>
              Normalize(blocks + [block]).value == Normalize(blocks).value +
                if Strip(block.content) == "" then []
                else [ContextBlock(Strip(block.source), Strip(block.content))]
  {
    hide Strip;
    if blocks == [] {
      assert [] + [block] == [block] && [block][1..] == [];
    } else {
      assert (blocks + [block])[1..] == blocks[1..] + [block];
      NormalizeOneMore(blocks[1..], block);
    }
  }

  /** Whatever providers return, once normalized it can be put on any content and comes off exactly. */
  lemma NormalizedContextRoundTrips(content: Content, raw: seq<ContextBlock>)
    requires Normalize(raw).Success? && Normalize(raw).value != []
    ensures var blocks := Normalize(raw).value;
            var (merged, marker) := Append(content, blocks);
            && PublicContent(merged, marker) == Plain(content)
            && Detach(merged, marker.value).Some?
            && Detach(merged, marker.value).value.visible == Plain(content)
            && CarriesContext(content, merged, blocks, Detach(merged, marker.value).value.context)
            && |Detach(merged, marker.value).value.sources| == |blocks|
            && forall i :: 0 <= i < |blocks| ==> Detach(merged, marker.value).value.sources[i] == blocks[i].source
  {
    var blocks := Normalize(raw).value;
    NormalizedBlocksHaveText(raw);
    DetachUndoesAppend(content, blocks);
    NothingFiltered(Append(content, blocks).1.value.sources);
    PublicUndoesAppend(content, blocks);
  }
}
