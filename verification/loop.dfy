/** The helpers of the computer-use sampling loop
    (computer-use-demo/computer_use_demo/loop.py): pruning old screenshots
    from the conversation, packaging a tool result for the API, and the
    append-and-retry skeleton of `sampling_loop` itself.

    Messages are values; the model API and the tools are outside the model
    and arrive as parameters. */
module SamplingLoop {
  import opened Wrappers
  import opened Text
  import ToolBase

  // ---------------------------------------------------------------------------
  // Messages
  // ---------------------------------------------------------------------------

  /** An entry of a tool result's content list: a dict with an optional
      `type` (and, for text, its text; for an image, its data), or a value
      that is not a dict at all. */
  datatype Item = DictItem(kind: Option<string>, body: string) | NonDictItem(repr: string)

  /** A `tool_result` block's `content`: absent, a string, or a list. */
  datatype ResultContent = NoContent | TextBody(text: string) | ItemList(items: seq<Item>)

  /** A content block of a message.  Only `ToolResultBlock` is a dict with
      `"type": "tool_result"`; blocks the model returned are objects. */
  datatype Block =
    | ToolResultBlock(toolUseId: string, content: ResultContent, isError: bool)
    | ToolUseBlock(id: string, name: string, input: ToolBase.Dict)
    | TextBlock(text: string)
    | OtherBlock(kind: string)

  datatype MessageContent = TextContent(text: string) | BlockList(blocks: seq<Block>)

  datatype Message = Message(role: string, content: MessageContent)

  function Min(a: int, b: int): int
  {
    if a < b then a else b
  }

  /** How many of `n` removals are left after `before` images went by. */
  function Remaining(n: nat, before: nat): nat
  {
    if before >= n then 0 else n - before
  }

  /** Dropping the first `n` of `a + b` drops the first `n` of `a`, then
      what is left of `n` from `b`. */
  lemma SuffixConcat<T>(a: seq<T>, b: seq<T>, n: nat)
    ensures a[Min(n, |a|)..] + b[Min(Remaining(n, |a|), |b|)..] == (a + b)[Min(n, |a| + |b|)..]
  {
    if n <= |a| {
      assert a[n..] + b == (a + b)[n..];
    } else {
      assert (a + b)[Min(n, |a| + |b|)..] == b[Min(n - |a|, |b|)..];
    }
  }

  // ---------------------------------------------------------------------------
  // Images inside tool results, item by item
  // ---------------------------------------------------------------------------

  predicate IsImage(it: Item)
  {
    it.DictItem? && it.kind == Some("image")
  }

  /** The image items of a content list, in order. */
  function ImagesOf(items: seq<Item>): (r: seq<Item>)
    ensures forall i | 0 <= i < |r| :: IsImage(r[i])
    ensures |r| <= |items|
  {
    if items == [] then []
    else
      var last := items[|items| - 1];
      ImagesOf(items[..|items| - 1]) + (if IsImage(last) then [last] else [])
  }

  /** The other items of a content list, in order. */
  function NonImages(items: seq<Item>): seq<Item>
  {
    if items == [] then []
    else
      var last := items[|items| - 1];
      NonImages(items[..|items| - 1]) + (if IsImage(last) then [] else [last])
  }

  lemma ImagesOfSnoc(a: seq<Item>, x: Item)
    ensures ImagesOf(a + [x]) == ImagesOf(a) + (if IsImage(x) then [x] else [])
    ensures NonImages(a + [x]) == NonImages(a) + (if IsImage(x) then [] else [x])
  {
    assert (a + [x])[..|a|] == a;
  }

  /** The rewritten content list: an image is dropped iff fewer than `n`
      images come before it. */
  function DropItems(items: seq<Item>, n: nat): seq<Item>
  {
    if items == [] then []
    else
      var init := items[..|items| - 1];
      var last := items[|items| - 1];
      DropItems(init, n) + (if IsImage(last) && |ImagesOf(init)| < n then [] else [last])
  }

  lemma {:induction false} DropItemsImages(items: seq<Item>, n: nat)
    ensures ImagesOf(DropItems(items, n)) == ImagesOf(items)[Min(n, |ImagesOf(items)|)..]
  {
    if items != [] {
      var init := items[..|items| - 1];
      var last := items[|items| - 1];
      var d := DropItems(init, n);
      var a := ImagesOf(init);
      var l := if IsImage(last) then [last] else [];
      var t := if IsImage(last) && |a| < n then [] else [last];
      assert DropItems(items, n) == d + t;
      assert ImagesOf(items) == a + l;
      DropItemsImages(init, n);
      if t == [] {
        assert d + t == d;
      } else {
        ImagesOfSnoc(d, last);
      }
      assert ImagesOf(d + t) == a[Min(n, |a|)..] + l[Min(Remaining(n, |a|), |l|)..];
      SuffixConcat(a, l, n);
    }
  }

  lemma {:induction false} DropItemsNonImages(items: seq<Item>, n: nat)
    ensures NonImages(DropItems(items, n)) == NonImages(items)
  {
    if items != [] {
      var init := items[..|items| - 1];
      var last := items[|items| - 1];
      var d := DropItems(init, n);
      var t := if IsImage(last) && |ImagesOf(init)| < n then [] else [last];
      assert DropItems(items, n) == d + t;
      assert NonImages(items) == NonImages(init) + (if IsImage(last) then [] else [last]);
      DropItemsNonImages(init, n);
      if t == [] {
        assert d + t == d;
      } else {
        ImagesOfSnoc(d, last);
      }
    }
  }

  // ---------------------------------------------------------------------------
  // Blocks
  // ---------------------------------------------------------------------------

  /** A `tool_result` block whose content is a list: the only place whose
      images are counted and rewritten. */
  predicate HasItemList(b: Block)
  {
    b.ToolResultBlock? && b.content.ItemList?
  }

  function BlockImages(b: Block): seq<Item>
  {
    if HasItemList(b) then ImagesOf(b.content.items) else []
  }

  function DropBlock(b: Block, n: nat): Block
  {
    if HasItemList(b) then b.(content := ItemList(DropItems(b.content.items, n))) else b
  }

  /** A block with every image of its content list erased. */
  function EraseBlock(b: Block): Block
  {
    if HasItemList(b) then b.(content := ItemList(NonImages(b.content.items))) else b
  }

  function BlocksImages(bs: seq<Block>): seq<Item>
  {
    if bs == [] then [] else BlocksImages(bs[..|bs| - 1]) + BlockImages(bs[|bs| - 1])
  }

  function DropBlocks(bs: seq<Block>, n: nat): (r: seq<Block>)
    ensures |r| == |bs|
  {
    if bs == [] then []
    else
      var init := bs[..|bs| - 1];
      DropBlocks(init, n) + [DropBlock(bs[|bs| - 1], Remaining(n, |BlocksImages(init)|))]
  }

  function EraseBlocks(bs: seq<Block>): seq<Block>
  {
    seq(|bs|, i requires 0 <= i < |bs| => EraseBlock(bs[i]))
  }

  lemma {:induction false} DropBlocksImages(bs: seq<Block>, n: nat)
    ensures BlocksImages(DropBlocks(bs, n)) == BlocksImages(bs)[Min(n, |BlocksImages(bs)|)..]
  {
    if bs != [] {
      var init := bs[..|bs| - 1];
      var last := bs[|bs| - 1];
      var r := Remaining(n, |BlocksImages(init)|);
      var d := DropBlocks(init, n);
      DropBlocksImages(init, n);
      assert (d + [DropBlock(last, r)])[..|d|] == d;
      if HasItemList(last) {
        DropItemsImages(last.content.items, r);
      }
      SuffixConcat(BlocksImages(init), BlockImages(last), n);
    }
  }

  lemma {:induction false} DropBlocksErase(bs: seq<Block>, n: nat)
    ensures EraseBlocks(DropBlocks(bs, n)) == EraseBlocks(bs)
  {
    if bs != [] {
      var init := bs[..|bs| - 1];
      var last := bs[|bs| - 1];
      var r := Remaining(n, |BlocksImages(init)|);
      DropBlocksErase(init, n);
      if HasItemList(last) {
        DropItemsNonImages(last.content.items, r);
      }
      var d := DropBlocks(bs, n);
      forall i | 0 <= i < |bs|
        ensures EraseBlock(d[i]) == EraseBlock(bs[i])
      {
        if i < |bs| - 1 {
          assert EraseBlocks(DropBlocks(init, n))[i] == EraseBlocks(init)[i];
        }
      }
    }
  }

  // ---------------------------------------------------------------------------
  // Messages
  // ---------------------------------------------------------------------------

  function MessageImages(m: Message): seq<Item>
  {
    if m.content.BlockList? then BlocksImages(m.content.blocks) else []
  }

  function DropMessage(m: Message, n: nat): Message
  {
    if m.content.BlockList? then m.(content := BlockList(DropBlocks(m.content.blocks, n))) else m
  }

  function EraseMessage(m: Message): Message
  {
    if m.content.BlockList? then m.(content := BlockList(EraseBlocks(m.content.blocks))) else m
  }

  /** Every counted image of a conversation, oldest first. */
  function AllImages(ms: seq<Message>): seq<Item>
  {
    if ms == [] then [] else AllImages(ms[..|ms| - 1]) + MessageImages(ms[|ms| - 1])
  }

  /** The conversation with its first `n` counted images dropped. */
  function DropMessages(ms: seq<Message>, n: nat): (r: seq<Message>)
    ensures |r| == |ms|
  {
    if ms == [] then []
    else
      var init := ms[..|ms| - 1];
      DropMessages(init, n) + [DropMessage(ms[|ms| - 1], Remaining(n, |AllImages(init)|))]
  }

  /** The conversation with every counted image erased. */
  function EraseMessages(ms: seq<Message>): seq<Message>
  {
    seq(|ms|, i requires 0 <= i < |ms| => EraseMessage(ms[i]))
  }

  lemma {:induction false} DropMessagesImages(ms: seq<Message>, n: nat)
    ensures AllImages(DropMessages(ms, n)) == AllImages(ms)[Min(n, |AllImages(ms)|)..]
  {
    if ms != [] {
      var init := ms[..|ms| - 1];
      var last := ms[|ms| - 1];
      var r := Remaining(n, |AllImages(init)|);
      var d := DropMessages(init, n);
      DropMessagesImages(init, n);
      assert (d + [DropMessage(last, r)])[..|d|] == d;
      if last.content.BlockList? {
        DropBlocksImages(last.content.blocks, r);
      }
      SuffixConcat(AllImages(init), MessageImages(last), n);
    }
  }

  lemma {:induction false} DropMessagesErase(ms: seq<Message>, n: nat)
    ensures EraseMessages(DropMessages(ms, n)) == EraseMessages(ms)
  {
    if ms != [] {
      var init := ms[..|ms| - 1];
      var last := ms[|ms| - 1];
      var r := Remaining(n, |AllImages(init)|);
      DropMessagesErase(init, n);
      if last.content.BlockList? {
        DropBlocksErase(last.content.blocks, r);
      }
      var d := DropMessages(ms, n);
      forall i | 0 <= i < |ms|
        ensures EraseMessage(d[i]) == EraseMessage(ms[i])
      {
        if i < |ms| - 1 {
          assert EraseMessages(DropMessages(init, n))[i] == EraseMessages(init)[i];
        }
      }
    }
  }

  // ---------------------------------------------------------------------------
  // `_maybe_filter_to_n_most_recent_images`
  // ---------------------------------------------------------------------------

  /** Python's `a % b`, whose result takes the sign of `b`. */
  function PyMod(a: int, b: int): (r: int)
    requires b != 0
    ensures b > 0 ==> 0 <= r < b
    ensures b < 0 ==> b < r <= 0
  {
    var r := a % b;
    if b > 0 || r == 0 then r else r + b
  }

  /** The initial `images_to_remove`: the surplus over `images_to_keep`,
      rounded down to a multiple of the threshold. */
  function ImagesToRemove(total: int, imagesToKeep: int, minRemovalThreshold: int): int
    requires minRemovalThreshold != 0
  {
    var d := total - imagesToKeep;
    d - PyMod(d, minRemovalThreshold)
  }

  function Positive(c: int): nat
  {
    if c > 0 then c else 0
  }

  function FilterSpec(ms: seq<Message>, imagesToKeep: int, minRemovalThreshold: int): seq<Message>
    requires minRemovalThreshold != 0
  {
    DropMessages(ms, Positive(ImagesToRemove(|AllImages(ms)|, imagesToKeep, minRemovalThreshold)))
  }

  /** The filter drops only images, and exactly the oldest ones: with the
      images erased the conversation is unchanged, and the images left are
      the most recent ones. */
  lemma FilterKeepsRecentImages(ms: seq<Message>, imagesToKeep: int, minRemovalThreshold: int)
    requires minRemovalThreshold != 0
    ensures var n := Positive(ImagesToRemove(|AllImages(ms)|, imagesToKeep, minRemovalThreshold));
      && EraseMessages(FilterSpec(ms, imagesToKeep, minRemovalThreshold)) == EraseMessages(ms)
      && AllImages(FilterSpec(ms, imagesToKeep, minRemovalThreshold)) == AllImages(ms)[Min(n, |AllImages(ms)|)..]
  {
    var n := Positive(ImagesToRemove(|AllImages(ms)|, imagesToKeep, minRemovalThreshold));
    DropMessagesErase(ms, n);
    DropMessagesImages(ms, n);
  }

  /** With a positive threshold and a non-negative number to keep: when
      there are no more than `images_to_keep` images nothing is removed;
      otherwise the number removed is a whole multiple of the threshold and
      what is kept is at least `images_to_keep` and fewer than
      `images_to_keep + threshold`. */
  lemma FilterCount(ms: seq<Message>, imagesToKeep: nat, minRemovalThreshold: nat)
    requires minRemovalThreshold > 0
    ensures KeptWithin(|AllImages(ms)|, |AllImages(FilterSpec(ms, imagesToKeep, minRemovalThreshold))|,
                       imagesToKeep, minRemovalThreshold)
  {
    KeptImages(ms, imagesToKeep, minRemovalThreshold);
    KeptCount(|AllImages(ms)|, imagesToKeep, minRemovalThreshold,
              |AllImages(FilterSpec(ms, imagesToKeep, minRemovalThreshold))|);
  }

  /** How many images the filter keeps. */
  lemma KeptImages(ms: seq<Message>, imagesToKeep: int, minRemovalThreshold: int)
    requires minRemovalThreshold != 0
    ensures var total := |AllImages(ms)|;
      |AllImages(FilterSpec(ms, imagesToKeep, minRemovalThreshold))|
        == total - Min(Positive(ImagesToRemove(total, imagesToKeep, minRemovalThreshold)), total)
  {
    DropMessagesImages(ms, Positive(ImagesToRemove(|AllImages(ms)|, imagesToKeep, minRemovalThreshold)));
  }

  /** Of `total` images, `kept` remain: all of them when there are no more
      than `imagesToKeep`; otherwise a whole multiple of `t` went, and what
      is left is at least `imagesToKeep` and fewer than `imagesToKeep + t`. */
  predicate KeptWithin(total: nat, kept: int, imagesToKeep: nat, t: nat)
    requires t > 0
  {
    && (total <= imagesToKeep ==> kept == total)
    && (total > imagesToKeep ==>
          && total - kept == ((total - imagesToKeep) / t) * t
          && imagesToKeep <= kept < imagesToKeep + t)
  }

  /** `FilterCount` on the counts alone. */
  lemma KeptCount(total: nat, imagesToKeep: nat, t: nat, kept: int)
    requires t > 0
    requires kept == total - Min(Positive(ImagesToRemove(total, imagesToKeep, t)), total)
    ensures KeptWithin(total, kept, imagesToKeep, t)
  {
    var d := total - imagesToKeep;
    var e := ImagesToRemove(total, imagesToKeep, t);
    SurplusSplit(d, t);
    assert e == d - PyMod(d, t);
    if total > imagesToKeep {
      assert 0 <= e <= d;
      assert kept == total - e;
    } else {
      assert kept == total;
    }
  }

  /** The arithmetic behind `FilterCount`: the surplus rounded down to a
      multiple of a positive threshold. */
  lemma SurplusSplit(d: int, t: int)
    requires t > 0
    ensures d - PyMod(d, t) == (d / t) * t
    ensures d <= 0 ==> d - PyMod(d, t) <= 0
    ensures d > 0 ==> 0 <= d - PyMod(d, t) <= d < d - PyMod(d, t) + t
  {
    assert PyMod(d, t) == d % t;
    assert d == (d / t) * t + d % t;
    if d > 0 {
      assert d / t >= 0;
    }
  }

  /** Three single-image tool results, two to keep, threshold 1: two
      images remain. */
  lemma FilterExample()
    ensures var img := DictItem(Some("image"), "");
      var m := Message("user", BlockList([ToolResultBlock("", ItemList([img]), false)]));
      |AllImages(FilterSpec([m, m, m], 2, 1))| == 2
  {
    var img := DictItem(Some("image"), "");
    var m := Message("user", BlockList([ToolResultBlock("", ItemList([img]), false)]));
    assert ImagesOf([img]) == [img] by {
      assert [img][..0] == [];
    }
    assert BlocksImages(m.content.blocks) == [img] by {
      assert m.content.blocks[..0] == [];
    }
    assert AllImages([m]) == [img] by {
      assert [m][..0] == [];
    }
    assert AllImages([m, m]) == [img, img] by {
      assert [m, m][..1] == [m];
    }
    assert AllImages([m, m, m]) == [img, img, img] by {
      assert [m, m, m][..2] == [m, m];
    }
    FilterCount([m, m, m], 2, 1);
  }

  lemma RemainingCompose(n: nat, a: nat, b: nat)
    ensures Remaining(Remaining(n, a), b) == Remaining(n, a + b)
  {
  }

  lemma DropMessagesStep(ms: seq<Message>, i: nat, n: nat)
    requires i < |ms|
    ensures DropMessages(ms[..i + 1], n) ==
      DropMessages(ms[..i], n) + [DropMessage(ms[i], Remaining(n, |AllImages(ms[..i])|))]
    ensures |AllImages(ms[..i + 1])| == |AllImages(ms[..i])| + |MessageImages(ms[i])|
  {
    assert ms[..i + 1][..i] == ms[..i];
  }

  /** The rewrite of one content list, with the running counter. */
  method FilterItems(items: seq<Item>, counter: int) returns (kept: seq<Item>, after: int)
    ensures kept == DropItems(items, Positive(counter))
    ensures Positive(after) == Remaining(Positive(counter), |ImagesOf(items)|)
    ensures counter <= 0 ==> after == counter
  {
    kept := [];
    after := counter;
    var k := 0;
    while k < |items|
      invariant 0 <= k <= |items|
      invariant kept == DropItems(items[..k], Positive(counter))
      invariant Positive(after) == Remaining(Positive(counter), |ImagesOf(items[..k])|)
      invariant counter <= 0 ==> after == counter
    {
      var item := items[k];
      assert items[..k + 1][..k] == items[..k];
      if IsImage(item) && after > 0 {
        after := after - 1;
      } else {
        kept := kept + [item];
      }
      k := k + 1;
    }
    assert items[..k] == items;
  }

  /** The rewrite of one message's blocks, with the running counter. */
  method FilterBlocks(blocks: seq<Block>, counter: int) returns (rewritten: seq<Block>, after: int)
    ensures rewritten == DropBlocks(blocks, Positive(counter))
    ensures Positive(after) == Remaining(Positive(counter), |BlocksImages(blocks)|)
    ensures counter <= 0 ==> after == counter
  {
    rewritten := [];
    after := counter;
    var j := 0;
    while j < |blocks|
      invariant 0 <= j <= |blocks|
      invariant rewritten == DropBlocks(blocks[..j], Positive(counter))
      invariant Positive(after) == Remaining(Positive(counter), |BlocksImages(blocks[..j])|)
      invariant counter <= 0 ==> after == counter
    {
      var b := blocks[j];
      assert blocks[..j + 1][..j] == blocks[..j];
      if HasItemList(b) {
        var items, c := FilterItems(b.content.items, after);
        rewritten := rewritten + [b.(content := ItemList(items))];
        after := c;
      } else {
        rewritten := rewritten + [b];
      }
      j := j + 1;
    }
    assert blocks[..j] == blocks;
  }

  /** The rewrite of one message: only a list of blocks is looked into. */
  method FilterMessage(m: Message, counter: int) returns (rewritten: Message, after: int)
    ensures rewritten == DropMessage(m, Positive(counter))
    ensures Positive(after) == Remaining(Positive(counter), |MessageImages(m)|)
    ensures counter <= 0 ==> after == counter
  {
    if m.content.BlockList? {
      var blocks;
      blocks, after := FilterBlocks(m.content.blocks, counter);
      rewritten := m.(content := BlockList(blocks));
    } else {
      rewritten, after := m, counter;
    }
  }

  /** `_maybe_filter_to_n_most_recent_images`: counts the images in
      `tool_result` content lists, then rewrites those lists in place,
      skipping images while the counter is positive. */
  method FilterToNMostRecentImages(messages: array<Message>, imagesToKeep: int, minRemovalThreshold: int)
    requires minRemovalThreshold != 0
    modifies messages
    ensures messages[..] == FilterSpec(old(messages[..]), imagesToKeep, minRemovalThreshold)
  {
    ghost var original := messages[..];
    var totalImages := |AllImages(messages[..])|;
    var imagesToRemove := ImagesToRemove(totalImages, imagesToKeep, minRemovalThreshold);
    ghost var n := Positive(imagesToRemove);
    var i := 0;
    SplitEnds(original, n);
    while i < messages.Length
      invariant 0 <= i <= messages.Length
      invariant messages[..] == DropMessages(original[..i], n) + original[i..]
      invariant Positive(imagesToRemove) == Remaining(n, |AllImages(original[..i])|)
    {
      imagesToRemove := FilterAt(messages, i, imagesToRemove, original, n);
      i := i + 1;
    }
    SplitEnds(original, n);
  }

  /** The loop invariant below at its two ends: nothing rewritten yet, and
      everything rewritten. */
  lemma SplitEnds(original: seq<Message>, n: nat)
    ensures DropMessages(original[..0], n) + original[0..] == original
    ensures DropMessages(original[..|original|], n) + original[|original|..] == DropMessages(original, n)
    ensures Remaining(n, |AllImages(original[..0])|) == n
  {
    assert original[..0] == [] && original[0..] == original;
    assert original[..|original|] == original && original[|original|..] == [];
  }

  /** The body of the loop above: rewrites `messages[i]` in place. */
  method FilterAt(messages: array<Message>, i: nat, counter: int, ghost original: seq<Message>, ghost n: nat)
      returns (after: int)
    requires i < messages.Length == |original|
    requires messages[..] == DropMessages(original[..i], n) + original[i..]
    requires Positive(counter) == Remaining(n, |AllImages(original[..i])|)
    modifies messages
    ensures messages[..] == DropMessages(original[..i + 1], n) + original[i + 1..]
    ensures Positive(after) == Remaining(n, |AllImages(original[..i + 1])|)
  {
    ghost var cur := messages[..];
    DropMessagesStep(original, i, n);
    RemainingCompose(n, |AllImages(original[..i])|, |MessageImages(original[i])|);
    assert messages[i] == original[i];
    var m;
    m, after := FilterMessage(messages[i], counter);
    FilterStep(cur, original, i, n, m);
    messages[i] := m;
    assert messages[..] == cur[i := m];
  }

  /** One step of the loop above, on sequences. */
  lemma FilterStep(cur: seq<Message>, original: seq<Message>, i: nat, n: nat, m: Message)
    requires i < |original|
    requires cur == DropMessages(original[..i], n) + original[i..]
    requires m == DropMessage(original[i], Remaining(n, |AllImages(original[..i])|))
    ensures |DropMessages(original[..i], n)| == i
    ensures cur[i := m] == DropMessages(original[..i + 1], n) + original[i + 1..]
  {
    DropMessagesStep(original, i, n);
    SpliceStep(cur, DropMessages(original[..i], n), DropMessages(original[..i + 1], n), original, i, m);
  }

  /** Overwriting position `i` of a sequence made of a rewritten prefix and
      the rest of the original extends the rewritten prefix by one. */
  lemma SpliceStep<T>(cur: seq<T>, done: seq<T>, next: seq<T>, original: seq<T>, i: nat, m: T)
    requires i < |original| && |done| == i
    requires cur == done + original[i..]
    requires next == done + [m]
    ensures cur[i := m] == next + original[i + 1..]
  {
    assert original[i..] == [original[i]] + original[i + 1..];
    assert cur[i := m] == done + ([m] + original[i + 1..]);
  }


  // ---------------------------------------------------------------------------
  // `_maybe_prepend_system_tool_result` and `_make_api_tool_result`
  // ---------------------------------------------------------------------------

  const SystemOpen: string := "<system>"
  const SystemClose: string := "</system>\n"

  /** The text handed to the model: prefixed with the result's `system`
      note, inside `<system>` tags, when that note is non-empty. */
  function PrependSystem(result: ToolBase.ToolResult, text: string): (r: string)
    ensures |r| >= |text| && r[|r| - |text|..] == text
    ensures |r| > |text| <==> ToolBase.Truthy(result.system)
    ensures ToolBase.Truthy(result.system) ==>
      && |r| == |SystemOpen| + |result.system.value| + |SystemClose| + |text|
      && r[..|SystemOpen|] == SystemOpen
      && r[|SystemOpen|..|SystemOpen| + |result.system.value|] == result.system.value
      && r[|SystemOpen| + |result.system.value|..|r| - |text|] == SystemClose
  {
    if ToolBase.Truthy(result.system) then SystemOpen + result.system.value + SystemClose + text
    else text
  }

  /** The `tool_result` block answering the tool call `toolUseId`: an error
      becomes the block's text and marks it as an error; otherwise the
      content lists the output as text and the screenshot as an image,
      each only when non-empty. */
  function MakeApiToolResult(result: ToolBase.ToolResult, toolUseId: string): (b: Block)
    ensures b.ToolResultBlock? && b.toolUseId == toolUseId
    ensures b.isError <==> ToolBase.Truthy(result.error)
    ensures b.isError ==> b.content == TextBody(PrependSystem(result, result.error.value))
    ensures !b.isError ==> b.content.ItemList? && |b.content.items| <= 2
    ensures !b.isError ==> (b.content.items == [] <==> !ToolBase.Truthy(result.output) && !ToolBase.Truthy(result.base64Image))
    ensures !b.isError && ToolBase.Truthy(result.output) ==>
      var first := b.content.items[0];
      && first.DictItem? && first.kind == Some("text") && |first.body| >= |result.output.value|
      && first.body[|first.body| - |result.output.value|..] == result.output.value
    ensures !b.isError ==>
      b.content.items ==
        (if ToolBase.Truthy(result.output) then [DictItem(Some("text"), PrependSystem(result, result.output.value))] else []) +
        (if ToolBase.Truthy(result.base64Image) then [DictItem(Some("image"), result.base64Image.value)] else [])
  {
    if ToolBase.Truthy(result.error) then
      ToolResultBlock(toolUseId, TextBody(PrependSystem(result, result.error.value)), true)
    else
      var text := if ToolBase.Truthy(result.output)
        then [DictItem(Some("text"), PrependSystem(result, result.output.value))] else [];
      var image := if ToolBase.Truthy(result.base64Image)
        then [DictItem(Some("image"), result.base64Image.value)] else [];
      ToolResultBlock(toolUseId, ItemList(text + image), false)
  }

  /** What the image filter later sees of a packaged result: exactly one
      image, carrying the screenshot, when the result has a screenshot and
      no error, and otherwise none. */
  lemma ToolResultImages(result: ToolBase.ToolResult, toolUseId: string)
    ensures var b := MakeApiToolResult(result, toolUseId);
      && (|BlockImages(b)| == 1 <==> !ToolBase.Truthy(result.error) && ToolBase.Truthy(result.base64Image))
      && (|BlockImages(b)| == 1 ==> BlockImages(b) == [DictItem(Some("image"), result.base64Image.value)])
      && |BlockImages(b)| <= 1
  {
    var b := MakeApiToolResult(result, toolUseId);
    if !ToolBase.Truthy(result.error) {
      var text := if ToolBase.Truthy(result.output)
        then [DictItem(Some("text"), PrependSystem(result, result.output.value))] else [];
      var image := if ToolBase.Truthy(result.base64Image)
        then [DictItem(Some("image"), result.base64Image.value)] else [];
      assert b.content.items == text + image;
      ImagesOfAppend(text, image);
      assert ImagesOf(text) == [] by {
        if text != [] {
          assert text[..0] == [];
        }
      }
      assert ImagesOf(image) == image by {
        if image != [] {
          assert image[..0] == [];
        }
      }
    }
  }

  lemma {:induction false} ImagesOfAppend(a: seq<Item>, b: seq<Item>)
    ensures ImagesOf(a + b) == ImagesOf(a) + ImagesOf(b)
  {
    if b != [] {
      var init := b[..|b| - 1];
      var last := b[|b| - 1];
      ImagesOfAppend(a, init);
      assert a + b == (a + init) + [last];
      ImagesOfSnoc(a + init, last);
      assert b == init + [last];
      ImagesOfSnoc(init, last);
    } else {
      assert a + b == a;
    }
  }

  // ---------------------------------------------------------------------------
  // Running the tool calls of one reply (`sampling_loop`, the inner loop)
  // ---------------------------------------------------------------------------

  /** The ids of the tool calls among a reply's blocks, in order. */
  function ToolUseIds(bs: seq<Block>): seq<string>
  {
    if bs == [] then []
    else
      var last := bs[|bs| - 1];
      ToolUseIds(bs[..|bs| - 1]) + (if last.ToolUseBlock? then [last.id] else [])
  }

  /** The ids answered by the `tool_result` blocks of a message, in order. */
  function ResultIds(bs: seq<Block>): seq<string>
  {
    if bs == [] then []
    else
      var last := bs[|bs| - 1];
      ResultIds(bs[..|bs| - 1]) + (if last.ToolResultBlock? then [last.toolUseId] else [])
  }

  /** The tool calls among a reply's blocks, in order. */
  function ToolCalls(bs: seq<Block>): (r: seq<Block>)
    ensures forall k | 0 <= k < |r| :: r[k].ToolUseBlock?
  {
    if bs == [] then []
    else
      var last := bs[|bs| - 1];
      ToolCalls(bs[..|bs| - 1]) + (if last.ToolUseBlock? then [last] else [])
  }

  /** No call raises among the blocks before index `i`. */
  predicate CallsBeforeReturn(bs: seq<Block>, i: nat,
                              run: (string, ToolBase.Dict) -> Result<ToolBase.ToolResult, string>)
    requires i <= |bs|
  {
    forall j | 0 <= j < i && bs[j].ToolUseBlock? :: run(bs[j].name, bs[j].input).Success?
  }

  /** Call `c` returned, and `b` is the packaged result answering it. */
  predicate Answers(b: Block, c: Block, run: (string, ToolBase.Dict) -> Result<ToolBase.ToolResult, string>)
    requires c.ToolUseBlock?
  {
    run(c.name, c.input).Success? && b == MakeApiToolResult(run(c.name, c.input).value, c.id)
  }

  /** The tool calls of a reply run in order; the first call that raises
      ends the run with its exception, and otherwise each call is answered
      by its packaged result. */
  function RunTools(bs: seq<Block>, run: (string, ToolBase.Dict) -> Result<ToolBase.ToolResult, string>)
    : (r: Result<seq<Block>, string>)
    ensures r.Failure? <==> exists i | 0 <= i < |bs| && bs[i].ToolUseBlock? :: run(bs[i].name, bs[i].input).Failure?
    ensures r.Success? ==> ResultIds(r.value) == ToolUseIds(bs)
    ensures r.Success? ==> |r.value| == |ToolUseIds(bs)|
    ensures r.Success? ==> forall k | 0 <= k < |r.value| :: r.value[k].ToolResultBlock?
  {
    if bs == [] then Success([])
    else
      var init := bs[..|bs| - 1];
      var last := bs[|bs| - 1];
      assert forall i | 0 <= i < |init| :: init[i] == bs[i];
      match RunTools(init, run)
      case Failure(e) => Failure(e)
      case Success(rs) =>
        if !last.ToolUseBlock? then Success(rs)
        else
          match run(last.name, last.input)
          case Failure(e) => Failure(e)
          case Success(x) =>
            var rs' := rs + [MakeApiToolResult(x, last.id)];
            assert rs'[..|rs'| - 1] == rs;
            Success(rs')
  }

  /** The `for content_block in response.content` loop. */
  method RunToolUses(bs: seq<Block>, run: (string, ToolBase.Dict) -> Result<ToolBase.ToolResult, string>)
    returns (r: Result<seq<Block>, string>)
    ensures r == RunTools(bs, run)
  {
    var results: seq<Block> := [];
    var k := 0;
    while k < |bs|
      invariant 0 <= k <= |bs|
      invariant RunTools(bs[..k], run) == Success(results)
    {
      assert bs[..k + 1][..k] == bs[..k];
      var b := bs[k];
      if b.ToolUseBlock? {
        var outcome := run(b.name, b.input);
        if outcome.Failure? {
          RunToolsFailurePersists(bs, k + 1, run);
          return Failure(outcome.error);
        }
        results := results + [MakeApiToolResult(outcome.value, b.id)];
      }
      k := k + 1;
    }
    assert bs[..k] == bs;
    return Success(results);
  }

  /** A failed run fails with the exception of the first call that raised:
      every call before it returned. */
  lemma {:induction false} RunToolsFirstFailure(bs: seq<Block>,
                                                run: (string, ToolBase.Dict) -> Result<ToolBase.ToolResult, string>)
    requires RunTools(bs, run).Failure?
    ensures exists i | 0 <= i < |bs| && bs[i].ToolUseBlock? && run(bs[i].name, bs[i].input).Failure? ::
      RunTools(bs, run).error == run(bs[i].name, bs[i].input).error && CallsBeforeReturn(bs, i, run)
    decreases |bs|
  {
    var init := bs[..|bs| - 1];
    var last := bs[|bs| - 1];
    assert forall j | 0 <= j < |init| :: init[j] == bs[j];
    if RunTools(init, run).Failure? {
      RunToolsFirstFailure(init, run);
      var i :| 0 <= i < |init| && init[i].ToolUseBlock? && run(init[i].name, init[i].input).Failure?
        && RunTools(init, run).error == run(init[i].name, init[i].input).error && CallsBeforeReturn(init, i, run);
      assert bs[i] == init[i];
      assert CallsBeforeReturn(bs, i, run);
    } else {
      var i := |bs| - 1;
      assert bs[i] == last;
      assert CallsBeforeReturn(bs, i, run);
    }
  }

  /** A run that returns answers every tool call, in order, with the
      packaged result of that call. */
  lemma {:induction false} RunToolsAnswers(bs: seq<Block>,
                                           run: (string, ToolBase.Dict) -> Result<ToolBase.ToolResult, string>)
    requires RunTools(bs, run).Success?
    ensures |RunTools(bs, run).value| == |ToolCalls(bs)|
    ensures forall k | 0 <= k < |ToolCalls(bs)| :: Answers(RunTools(bs, run).value[k], ToolCalls(bs)[k], run)
    decreases |bs|
  {
    if bs != [] {
      var init := bs[..|bs| - 1];
      var last := bs[|bs| - 1];
      assert RunTools(init, run).Success?;
      RunToolsAnswers(init, run);
      var rs := RunTools(init, run).value;
      if last.ToolUseBlock? {
        var b := MakeApiToolResult(run(last.name, last.input).value, last.id);
        assert RunTools(bs, run).value == rs + [b];
        assert ToolCalls(bs) == ToolCalls(init) + [last];
      } else {
        assert RunTools(bs, run).value == rs;
        assert ToolCalls(bs) == ToolCalls(init);
      }
    }
  }

  /** Once a prefix of the calls fails, the whole run fails the same way. */
  lemma {:induction false} RunToolsFailurePersists(bs: seq<Block>, k: nat,
                                                   run: (string, ToolBase.Dict) -> Result<ToolBase.ToolResult, string>)
    requires k <= |bs|
    requires RunTools(bs[..k], run).Failure?
    ensures RunTools(bs, run) == RunTools(bs[..k], run)
    decreases |bs| - k
  {
    if k < |bs| {
      assert bs[..k + 1][..k] == bs[..k];
      RunToolsFailurePersists(bs, k + 1, run);
    } else {
      assert bs[..k] == bs;
    }
  }

  /** Packaging erases nothing the protocol looks at: erasing images keeps
      every block's kind and id. */
  lemma {:induction false} EraseKeepsIds(bs: seq<Block>)
    ensures ToolUseIds(EraseBlocks(bs)) == ToolUseIds(bs)
    ensures ResultIds(EraseBlocks(bs)) == ResultIds(bs)
  {
    if bs != [] {
      var init := bs[..|bs| - 1];
      assert EraseBlocks(bs)[..|bs| - 1] == EraseBlocks(init);
      EraseKeepsIds(init);
    }
  }

  // ---------------------------------------------------------------------------
  // `sampling_loop`
  // ---------------------------------------------------------------------------

  /** One call of the model API: a reply's content blocks, or the
      exception it raised (named by its text). */
  datatype ApiReply = Reply(blocks: seq<Block>) | ApiRaised(message: string)

  /** How the loop ended: a reply without tool calls, an exception that is
      not a rate limit, or the replies given to the model ran out. */
  datatype LoopEnd = Returned | Raised(message: string) | OutOfReplies

  const MinRemovalThreshold: int := 10
  const MaxDelay: nat := 60

  /** `"rate_limit_error" in str(e).lower()`. */
  predicate IsRateLimit(message: string)
  {
    Contains(Lower(message), "rate_limit_error")
  }

  function Pow2(n: nat): (r: nat)
    ensures r >= 1
  {
    if n == 0 then 1 else 2 * Pow2(n - 1)
  }

  /** `min(2**retry_count, 60)`. */
  function BackoffDelay(retry: nat): nat
  {
    Min(Pow2(retry), MaxDelay)
  }

  /** The back-off doubles from 2 seconds and stays at 60 from the sixth
      consecutive rate limit on. */
  lemma {:induction false} BackoffDelayBounds(retry: nat)
    requires retry >= 1
    ensures 2 <= BackoffDelay(retry) <= MaxDelay
    ensures retry <= 5 ==> BackoffDelay(retry) == Pow2(retry)
    ensures retry >= 6 <==> BackoffDelay(retry) == MaxDelay
    ensures BackoffDelay(retry) <= BackoffDelay(retry + 1)
  {
    if retry == 1 {
      assert Pow2(1) == 2;
    } else {
      BackoffDelayBounds(retry - 1);
      if retry <= 5 {
        assert Pow2(retry) == 2 * Pow2(retry - 1);
      }
    }
    assert Pow2(retry + 1) == 2 * Pow2(retry);
    if retry == 5 {
      assert Pow2(5) == 32;
    }
  }

  /** The messages `sampling_loop` appends, images erased: every user
      message directly follows an assistant message that made tool calls,
      and answers exactly those calls, in order. */
  ghost predicate Exchange(tail: seq<Message>)
  {
    forall i | 0 <= i < |tail| ::
      && (tail[i].role == "assistant" || tail[i].role == "user")
      && tail[i].content.BlockList?
      && (tail[i].role == "user" ==>
            && 0 < i && tail[i - 1].role == "assistant" && tail[i - 1].content.BlockList?
            && ToolUseIds(tail[i - 1].content.blocks) != []
            && ResultIds(tail[i].content.blocks) == ToolUseIds(tail[i - 1].content.blocks))
  }

  /** `msgs` is `messages` followed by an exchange, images erased. */
  ghost predicate Extends(messages: seq<Message>, msgs: seq<Message>)
  {
    && |msgs| >= |messages|
    && EraseMessages(msgs)[..|messages|] == EraseMessages(messages)
    && Exchange(EraseMessages(msgs)[|messages|..])
  }

  /** Pruning images keeps the erased conversation, so it keeps `Extends`. */
  lemma SameErasureExtends(messages: seq<Message>, msgs: seq<Message>, pruned: seq<Message>)
    requires Extends(messages, msgs)
    requires EraseMessages(pruned) == EraseMessages(msgs)
    ensures Extends(messages, pruned)
  {
    assert |pruned| == |EraseMessages(pruned)|;
  }

  /** What one model call did: the conversation after it, whether its tool
      results were appended (`answered`), and the exception it raised. */
  datatype Step = Step(next: seq<Message>, answered: bool, error: Option<string>)

  /** The `try` body after a reply: the reply is appended as an assistant
      message and its tool calls run; when all of them return and there
      was at least one, their results follow as one user message; a call
      that raises makes the step's error. */
  function ReplyStep(msgs: seq<Message>, blocks: seq<Block>,
                     run: (string, ToolBase.Dict) -> Result<ToolBase.ToolResult, string>): Step
  {
    var reply := Message("assistant", BlockList(blocks));
    match RunTools(blocks, run)
    case Failure(e) => Step(msgs + [reply], false, Some(e))
    case Success(rs) =>
      if rs == [] then Step(msgs + [reply], false, None)
      else Step(msgs + [reply, Message("user", BlockList(rs))], true, None)
  }

  /** One model call: a raising call leaves the conversation alone. */
  function ApiStep(msgs: seq<Message>, reply: ApiReply,
                   run: (string, ToolBase.Dict) -> Result<ToolBase.ToolResult, string>): Step
  {
    match reply
    case ApiRaised(e) => Step(msgs, false, Some(e))
    case Reply(blocks) => ReplyStep(msgs, blocks, run)
  }

  /** The pruning at the top of each iteration, when
      `only_n_most_recent_images` is set and non-zero. */
  function Pruned(msgs: seq<Message>, onlyNMostRecentImages: Option<int>): seq<Message>
  {
    if onlyNMostRecentImages.Some? && onlyNMostRecentImages.value != 0
    then FilterSpec(msgs, onlyNMostRecentImages.value, MinRemovalThreshold)
    else msgs
  }

  /** How a run of the loop ended, the conversation it left, and the
      back-off delays it slept, in order. */
  datatype Outcome = Outcome(end: LoopEnd, final: seq<Message>, delays: seq<nat>)

  /** An outcome reached after sleeping `delays` first. */
  function After(delays: seq<nat>, o: Outcome): Outcome
  {
    Outcome(o.end, o.final, delays + o.delays)
  }

  /** `sampling_loop` from the conversation `msgs`, `retry` rate limits
      having been met since the last answered round, one model call per
      element of `replies`: a rate limit, from the model call or from a
      tool, counts one more and sleeps `BackoffDelay` of the new count; an
      answered round resets the count; a reply without tool calls returns;
      any other exception escapes. */
  function LoopSpec(msgs: seq<Message>, onlyNMostRecentImages: Option<int>, retry: nat, replies: seq<ApiReply>,
                    run: (string, ToolBase.Dict) -> Result<ToolBase.ToolResult, string>): Outcome
    decreases |replies|
  {
    if replies == [] then Outcome(OutOfReplies, msgs, [])
    else
      var step := ApiStep(Pruned(msgs, onlyNMostRecentImages), replies[0], run);
      if step.error.Some? then
        if IsRateLimit(step.error.value) then
          After([BackoffDelay(retry + 1)], LoopSpec(step.next, onlyNMostRecentImages, retry + 1, replies[1..], run))
        else Outcome(Raised(step.error.value), step.next, [])
      else if step.answered then LoopSpec(step.next, onlyNMostRecentImages, 0, replies[1..], run)
      else Outcome(Returned, step.next, [])
  }

  /** `sampling_loop`, one model call per element of `replies`.  Before each
      call the images are pruned when `only_n_most_recent_images` is set and
      non-zero; a reply is appended as an assistant message, its tool calls
      run, and their results appended as one user message; a reply without
      tool calls ends the loop.  An exception, from the model call or from a
      tool, is retried after a back-off when it is a rate limit and ends the
      loop otherwise. */
  method SamplingLoop(messages: seq<Message>, onlyNMostRecentImages: Option<int>, replies: seq<ApiReply>,
                      run: (string, ToolBase.Dict) -> Result<ToolBase.ToolResult, string>)
    returns (end: LoopEnd, final: seq<Message>, delays: seq<nat>)
    ensures Outcome(end, final, delays) == LoopSpec(messages, onlyNMostRecentImages, 0, replies, run)
    ensures LoopGuaranteed(messages, onlyNMostRecentImages, Outcome(end, final, delays))
  {
    end, final, delays := RunReplies(messages, onlyNMostRecentImages, replies, run);
    LoopGuarantees(messages, onlyNMostRecentImages, replies, run, Outcome(end, final, delays));
  }

  /** What the loop started on `messages` promises of its outcome: the
      original messages stay, up to pruned images (exactly when no pruning
      is asked for), and an exchange follows them; a return ends on an
      assistant turn without tool calls; only an exception that is not a
      rate limit escapes; every sleep lasts 2 to 60 seconds. */
  ghost predicate LoopGuaranteed(messages: seq<Message>, onlyNMostRecentImages: Option<int>, o: Outcome)
  {
    && |o.final| >= |messages|
    && EraseMessages(o.final)[..|messages|] == EraseMessages(messages)
    && Exchange(EraseMessages(o.final)[|messages|..])
    && ((onlyNMostRecentImages == None || onlyNMostRecentImages == Some(0)) ==> o.final[..|messages|] == messages)
    && (o.end.Returned? ==>
          && |o.final| > |messages|
          && o.final[|o.final| - 1].role == "assistant" && o.final[|o.final| - 1].content.BlockList?
          && ToolUseIds(o.final[|o.final| - 1].content.blocks) == [])
    && (o.end.Raised? ==> !IsRateLimit(o.end.message))
    && (forall k | 0 <= k < |o.delays| :: 2 <= o.delays[k] <= MaxDelay)
  }

  /** Every outcome of the loop keeps its promises. */
  lemma LoopGuarantees(messages: seq<Message>, onlyNMostRecentImages: Option<int>, replies: seq<ApiReply>,
                       run: (string, ToolBase.Dict) -> Result<ToolBase.ToolResult, string>, o: Outcome)
    requires o == LoopSpec(messages, onlyNMostRecentImages, 0, replies, run)
    ensures LoopGuaranteed(messages, onlyNMostRecentImages, o)
  {
    ExtendsItself(messages);
    LoopExtends(messages, messages, onlyNMostRecentImages, 0, replies, run);
    LoopReturns(messages, onlyNMostRecentImages, 0, replies, run);
    LoopRaises(messages, onlyNMostRecentImages, 0, replies, run);
    LoopDelays(messages, onlyNMostRecentImages, 0, replies, run);
  }

  /** The `while True` loop of `sampling_loop`, over the given replies. */
  method RunReplies(messages: seq<Message>, onlyNMostRecentImages: Option<int>, replies: seq<ApiReply>,
                    run: (string, ToolBase.Dict) -> Result<ToolBase.ToolResult, string>)
    returns (end: LoopEnd, final: seq<Message>, delays: seq<nat>)
    ensures Outcome(end, final, delays) == LoopSpec(messages, onlyNMostRecentImages, 0, replies, run)
  {
    var msgs := messages;
    var retry: nat := 0;
    var j := 0;
    delays := [];
    while j < |replies|
      invariant 0 <= j <= |replies|
      invariant LoopSpec(messages, onlyNMostRecentImages, 0, replies, run)
        == After(delays, LoopSpec(msgs, onlyNMostRecentImages, retry, replies[j..], run))
      decreases |replies| - j
    {
      var answered, error;
      LoopSpecAt(msgs, onlyNMostRecentImages, retry, replies, j, run);
      msgs, answered, error := TakeTurn(msgs, onlyNMostRecentImages, replies[j], run);
      j := j + 1;
      if error.Some? {
        if IsRateLimit(error.value) {
          retry := retry + 1;
          delays := delays + [BackoffDelay(retry)];
        } else {
          return Raised(error.value), msgs, delays;
        }
      } else if answered {
        retry := 0;
      } else {
        return Returned, msgs, delays;
      }
    }
    return OutOfReplies, msgs, delays;
  }

  /** `LoopSpec` from the `j`-th reply on, one turn unfolded. */
  lemma LoopSpecAt(msgs: seq<Message>, onlyNMostRecentImages: Option<int>, retry: nat, replies: seq<ApiReply>, j: nat,
                   run: (string, ToolBase.Dict) -> Result<ToolBase.ToolResult, string>)
    requires j < |replies|
    ensures var step := ApiStep(Pruned(msgs, onlyNMostRecentImages), replies[j], run);
      LoopSpec(msgs, onlyNMostRecentImages, retry, replies[j..], run) ==
        if step.error.Some? then
          if IsRateLimit(step.error.value) then
            After([BackoffDelay(retry + 1)], LoopSpec(step.next, onlyNMostRecentImages, retry + 1, replies[j + 1..], run))
          else Outcome(Raised(step.error.value), step.next, [])
        else if step.answered then LoopSpec(step.next, onlyNMostRecentImages, 0, replies[j + 1..], run)
        else Outcome(Returned, step.next, [])
  {
    assert replies[j..][0] == replies[j] && replies[j..][1..] == replies[j + 1..];
  }

  /** One iteration up to the handling of its exception: pruning, then the
      model call and, for a reply, its tool calls. */
  method TakeTurn(msgs: seq<Message>, onlyNMostRecentImages: Option<int>, reply: ApiReply,
                  run: (string, ToolBase.Dict) -> Result<ToolBase.ToolResult, string>)
      returns (next: seq<Message>, answered: bool, error: Option<string>)
    ensures Step(next, answered, error) == ApiStep(Pruned(msgs, onlyNMostRecentImages), reply, run)
  {
    next := msgs;
    if onlyNMostRecentImages.Some? && onlyNMostRecentImages.value != 0 {
      next := PruneImages(next, onlyNMostRecentImages.value);
    }
    answered := false;
    match reply {
      case ApiRaised(e) =>
        error := Some(e);
      case Reply(blocks) =>
        next, answered, error := HandleReply(next, blocks, run);
    }
  }

  /** The `try` body after the model call: the reply is appended as an
      assistant message and its tool calls run; when all of them return and
      there was at least one, their results are appended as a user message
      (`answered`); a raised exception is handed back as `error`. */
  method HandleReply(msgs: seq<Message>, blocks: seq<Block>,
                     run: (string, ToolBase.Dict) -> Result<ToolBase.ToolResult, string>)
      returns (next: seq<Message>, answered: bool, error: Option<string>)
    ensures Step(next, answered, error) == ReplyStep(msgs, blocks, run)
    ensures |next| > |msgs| && next[..|msgs|] == msgs
    ensures next[|msgs|] == Message("assistant", BlockList(blocks))
    ensures error.Some? <==> RunTools(blocks, run).Failure?
    ensures error.Some? ==> error.value == RunTools(blocks, run).error && !answered
    ensures answered <==> RunTools(blocks, run).Success? && RunTools(blocks, run).value != []
    ensures answered ==> next == msgs + [Message("assistant", BlockList(blocks)),
                                         Message("user", BlockList(RunTools(blocks, run).value))]
    ensures !answered ==> next == msgs + [Message("assistant", BlockList(blocks))]
  {
    var reply := Message("assistant", BlockList(blocks));
    next := msgs + [reply];
    var results := RunToolUses(blocks, run);
    answered := false;
    error := None;
    if results.Failure? {
      error := Some(results.error);
    } else if results.value != [] {
      next := next + [Message("user", BlockList(results.value))];
      answered := true;
    }
  }

  /** A conversation extends itself by the empty exchange. */
  lemma ExtendsItself(messages: seq<Message>)
    ensures Extends(messages, messages)
  {
    assert EraseMessages(messages)[..|messages|] == EraseMessages(messages);
    assert EraseMessages(messages)[|messages|..] == [];
  }

  /** One model call keeps the exchange invariant, and only appends. */
  lemma StepExtends(messages: seq<Message>, msgs: seq<Message>, reply: ApiReply,
                    run: (string, ToolBase.Dict) -> Result<ToolBase.ToolResult, string>)
    requires Extends(messages, msgs)
    ensures var step := ApiStep(msgs, reply, run);
      && Extends(messages, step.next)
      && |step.next| >= |msgs| && step.next[..|msgs|] == msgs
  {
    if reply.Reply? {
      var blocks := reply.blocks;
      var m := Message("assistant", BlockList(blocks));
      AppendExchange(messages, msgs, m);
      var r := RunTools(blocks, run);
      if r.Success? && r.value != [] {
        var next := msgs + [m];
        EraseKeepsIds(r.value);
        EraseKeepsIds(blocks);
        assert next[|next| - 1] == m;
        AppendExchange(messages, next, Message("user", BlockList(r.value)));
        assert next + [Message("user", BlockList(r.value))] == msgs + [m, Message("user", BlockList(r.value))];
      }
    }
  }

  /** Pruning keeps the exchange invariant; without pruning the list is
      untouched. */
  lemma PrunedExtends(messages: seq<Message>, msgs: seq<Message>, onlyNMostRecentImages: Option<int>)
    requires Extends(messages, msgs)
    ensures Extends(messages, Pruned(msgs, onlyNMostRecentImages))
  {
    if onlyNMostRecentImages.Some? && onlyNMostRecentImages.value != 0 {
      FilterKeepsRecentImages(msgs, onlyNMostRecentImages.value, MinRemovalThreshold);
      SameErasureExtends(messages, msgs, Pruned(msgs, onlyNMostRecentImages));
    }
  }

  /** Whatever the replies, a run from a conversation that extends the
      original keeps extending it: the original messages stay, up to pruned
      images (untouched without pruning), and only exchanges are appended. */
  lemma {:induction false} LoopExtends(messages: seq<Message>, msgs: seq<Message>,
                                       onlyNMostRecentImages: Option<int>, retry: nat, replies: seq<ApiReply>,
                                       run: (string, ToolBase.Dict) -> Result<ToolBase.ToolResult, string>)
    requires Extends(messages, msgs)
    requires (onlyNMostRecentImages == None || onlyNMostRecentImages == Some(0)) ==> msgs[..|messages|] == messages
    ensures Extends(messages, LoopSpec(msgs, onlyNMostRecentImages, retry, replies, run).final)
    ensures (onlyNMostRecentImages == None || onlyNMostRecentImages == Some(0)) ==>
      LoopSpec(msgs, onlyNMostRecentImages, retry, replies, run).final[..|messages|] == messages
    decreases |replies|
  {
    if replies != [] {
      var pruned := Pruned(msgs, onlyNMostRecentImages);
      PrunedExtends(messages, msgs, onlyNMostRecentImages);
      var step := ApiStep(pruned, replies[0], run);
      StepExtends(messages, pruned, replies[0], run);
      if (onlyNMostRecentImages == None || onlyNMostRecentImages == Some(0)) {
        assert step.next[..|messages|] == step.next[..|msgs|][..|messages|];
      }
      if step.error.Some? && IsRateLimit(step.error.value) {
        LoopExtends(messages, step.next, onlyNMostRecentImages, retry + 1, replies[1..], run);
      } else if step.error.None? && step.answered {
        LoopExtends(messages, step.next, onlyNMostRecentImages, 0, replies[1..], run);
      }
    }
  }

  /** Pruning keeps the number of messages, and a model call only appends. */
  lemma TurnGrows(msgs: seq<Message>, onlyNMostRecentImages: Option<int>, reply: ApiReply,
                  run: (string, ToolBase.Dict) -> Result<ToolBase.ToolResult, string>)
    ensures |ApiStep(Pruned(msgs, onlyNMostRecentImages), reply, run).next| >= |msgs|
  {
    if onlyNMostRecentImages.Some? && onlyNMostRecentImages.value != 0 {
      FilterKeepsRecentImages(msgs, onlyNMostRecentImages.value, MinRemovalThreshold);
      assert |EraseMessages(Pruned(msgs, onlyNMostRecentImages))| == |EraseMessages(msgs)|;
    }
  }

  /** A run that returns has appended a final assistant message without
      tool calls. */
  lemma {:induction false} LoopReturns(msgs: seq<Message>, onlyNMostRecentImages: Option<int>, retry: nat,
                                       replies: seq<ApiReply>,
                                       run: (string, ToolBase.Dict) -> Result<ToolBase.ToolResult, string>)
    ensures var o := LoopSpec(msgs, onlyNMostRecentImages, retry, replies, run);
      o.end.Returned? ==>
        && |o.final| > |msgs|
        && o.final[|o.final| - 1].role == "assistant" && o.final[|o.final| - 1].content.BlockList?
        && ToolUseIds(o.final[|o.final| - 1].content.blocks) == []
    decreases |replies|
  {
    if replies != [] {
      var step := ApiStep(Pruned(msgs, onlyNMostRecentImages), replies[0], run);
      TurnGrows(msgs, onlyNMostRecentImages, replies[0], run);
      if step.error.Some? && IsRateLimit(step.error.value) {
        LoopReturns(step.next, onlyNMostRecentImages, retry + 1, replies[1..], run);
      } else if step.error.None? && step.answered {
        LoopReturns(step.next, onlyNMostRecentImages, 0, replies[1..], run);
      } else if step.error.None? {
        var blocks := replies[0].blocks;
        assert RunTools(blocks, run) == Success([]);
        assert step.next[|step.next| - 1] == Message("assistant", BlockList(blocks));
      }
    }
  }

  /** Only an exception that is not a rate limit escapes the loop. */
  lemma {:induction false} LoopRaises(msgs: seq<Message>, onlyNMostRecentImages: Option<int>, retry: nat,
                                      replies: seq<ApiReply>,
                                      run: (string, ToolBase.Dict) -> Result<ToolBase.ToolResult, string>)
    ensures var o := LoopSpec(msgs, onlyNMostRecentImages, retry, replies, run);
      o.end.Raised? ==> !IsRateLimit(o.end.message)
    decreases |replies|
  {
    if replies != [] {
      var step := ApiStep(Pruned(msgs, onlyNMostRecentImages), replies[0], run);
      if step.error.Some? && IsRateLimit(step.error.value) {
        LoopRaises(step.next, onlyNMostRecentImages, retry + 1, replies[1..], run);
      } else if step.error.None? && step.answered {
        LoopRaises(step.next, onlyNMostRecentImages, 0, replies[1..], run);
      }
    }
  }

  /** Every sleep lasts between 2 and 60 seconds. */
  lemma {:induction false} LoopDelays(msgs: seq<Message>, onlyNMostRecentImages: Option<int>, retry: nat,
                                      replies: seq<ApiReply>,
                                      run: (string, ToolBase.Dict) -> Result<ToolBase.ToolResult, string>)
    ensures DelaysWithin(LoopSpec(msgs, onlyNMostRecentImages, retry, replies, run).delays)
    decreases |replies|
  {
    if replies != [] {
      var step := ApiStep(Pruned(msgs, onlyNMostRecentImages), replies[0], run);
      if step.error.Some? && IsRateLimit(step.error.value) {
        LoopDelays(step.next, onlyNMostRecentImages, retry + 1, replies[1..], run);
        BackoffDelayBounds(retry + 1);
        var rest := LoopSpec(step.next, onlyNMostRecentImages, retry + 1, replies[1..], run).delays;
        assert LoopSpec(msgs, onlyNMostRecentImages, retry, replies, run).delays == [BackoffDelay(retry + 1)] + rest;
        DelayFirst(BackoffDelay(retry + 1), rest);
      } else if step.error.None? && step.answered {
        LoopDelays(step.next, onlyNMostRecentImages, 0, replies[1..], run);
      } else {
        assert LoopSpec(msgs, onlyNMostRecentImages, retry, replies, run).delays == [];
      }
    }
  }

  /** Every sleep lasts between 2 and 60 seconds. */
  predicate DelaysWithin(ds: seq<nat>)
  {
    forall k | 0 <= k < |ds| :: 2 <= ds[k] <= MaxDelay
  }

  /** A sleep within bounds before others within bounds. */
  lemma DelayFirst(d: nat, rest: seq<nat>)
    requires 2 <= d <= MaxDelay
    requires DelaysWithin(rest)
    ensures DelaysWithin([d] + rest)
  {
    assert forall k | 1 <= k < |[d] + rest| :: ([d] + rest)[k] == rest[k - 1];
  }

  /** Rate limits in a row back off `BackoffDelay` of 1, 2, 3, ... more than
      the `retry` rate limits already met since the last answered round. */
  lemma {:induction false} RateLimitStreak(msgs: seq<Message>, onlyNMostRecentImages: Option<int>, retry: nat,
                                           replies: seq<ApiReply>,
                                           run: (string, ToolBase.Dict) -> Result<ToolBase.ToolResult, string>, k: nat)
    requires k <= |replies|
    requires forall i | 0 <= i < k :: replies[i].ApiRaised? && IsRateLimit(replies[i].message)
    ensures BacksOff(LoopSpec(msgs, onlyNMostRecentImages, retry, replies, run).delays, retry, k)
    decreases k
  {
    if k > 0 {
      var pruned := Pruned(msgs, onlyNMostRecentImages);
      var rest := replies[1..];
      assert forall i | 0 <= i < k - 1 :: rest[i] == replies[i + 1];
      RateLimitStreak(pruned, onlyNMostRecentImages, retry + 1, rest, run, k - 1);
      RateLimitTurn(msgs, onlyNMostRecentImages, retry, replies, run);
      BacksOffCons(LoopSpec(pruned, onlyNMostRecentImages, retry + 1, rest, run).delays, retry, k);
    }
  }

  /** The first `k` sleeps follow the back-off from `retry` rate limits on:
      `BackoffDelay(retry + 1)`, `BackoffDelay(retry + 2)`, ... */
  predicate BacksOff(delays: seq<nat>, retry: nat, k: nat)
  {
    |delays| >= k && forall i | 0 <= i < k :: delays[i] == BackoffDelay(retry + i + 1)
  }

  lemma BacksOffCons(tail: seq<nat>, retry: nat, k: nat)
    requires k > 0 && BacksOff(tail, retry + 1, k - 1)
    ensures BacksOff([BackoffDelay(retry + 1)] + tail, retry, k)
  {
    var ds := [BackoffDelay(retry + 1)] + tail;
    forall i | 0 < i < k
      ensures ds[i] == BackoffDelay(retry + i + 1)
    {
      assert ds[i] == tail[i - 1];
    }
  }

  /** A rate-limited model call sleeps once and retries with the count
      raised, the conversation only pruned. */
  lemma RateLimitTurn(msgs: seq<Message>, onlyNMostRecentImages: Option<int>, retry: nat,
                      replies: seq<ApiReply>,
                      run: (string, ToolBase.Dict) -> Result<ToolBase.ToolResult, string>)
    requires replies != [] && replies[0].ApiRaised? && IsRateLimit(replies[0].message)
    ensures LoopSpec(msgs, onlyNMostRecentImages, retry, replies, run)
      == After([BackoffDelay(retry + 1)],
               LoopSpec(Pruned(msgs, onlyNMostRecentImages), onlyNMostRecentImages, retry + 1, replies[1..], run))
  {
  }

  /** An answered round resets the back-off: the rate limits that follow it
      sleep 2, 4, 8, ... seconds whatever came before. */
  lemma BackoffAfterAnswer(msgs: seq<Message>, onlyNMostRecentImages: Option<int>, retry: nat,
                           replies: seq<ApiReply>,
                           run: (string, ToolBase.Dict) -> Result<ToolBase.ToolResult, string>, k: nat)
    requires k < |replies|
    requires ApiStep(Pruned(msgs, onlyNMostRecentImages), replies[0], run).answered
    requires forall i | 1 <= i <= k :: replies[i].ApiRaised? && IsRateLimit(replies[i].message)
    ensures BacksOff(LoopSpec(msgs, onlyNMostRecentImages, retry, replies, run).delays, 0, k)
  {
    var step := ApiStep(Pruned(msgs, onlyNMostRecentImages), replies[0], run);
    assert step.error.None?;
    var rest := replies[1..];
    assert forall i | 0 <= i < k :: rest[i] == replies[i + 1];
    RateLimitStreak(step.next, onlyNMostRecentImages, 0, rest, run, k);
  }

  /** A reply without tool calls ends the loop: the reply is appended and
      nothing else happens. */
  lemma NoToolCallsReturns(msgs: seq<Message>, onlyNMostRecentImages: Option<int>, retry: nat,
                           replies: seq<ApiReply>,
                           run: (string, ToolBase.Dict) -> Result<ToolBase.ToolResult, string>)
    requires replies != [] && replies[0].Reply?
    requires forall i | 0 <= i < |replies[0].blocks| :: !replies[0].blocks[i].ToolUseBlock?
    ensures LoopSpec(msgs, onlyNMostRecentImages, retry, replies, run)
      == Outcome(Returned, Pruned(msgs, onlyNMostRecentImages) + [Message("assistant", BlockList(replies[0].blocks))], [])
  {
    var blocks := replies[0].blocks;
    NoCallsNoIds(blocks);
    assert RunTools(blocks, run).Success?;
  }

  /** Blocks without tool calls carry no tool-use id. */
  lemma {:induction false} NoCallsNoIds(bs: seq<Block>)
    requires forall i | 0 <= i < |bs| :: !bs[i].ToolUseBlock?
    ensures ToolUseIds(bs) == []
  {
    if bs != [] {
      NoCallsNoIds(bs[..|bs| - 1]);
    }
  }

  /** The exception that escapes is one a model call or a tool raised. */
  lemma {:induction false} RaisedComesFromReplies(msgs: seq<Message>, onlyNMostRecentImages: Option<int>, retry: nat,
                                                  replies: seq<ApiReply>,
                                                  run: (string, ToolBase.Dict) -> Result<ToolBase.ToolResult, string>)
    ensures var o := LoopSpec(msgs, onlyNMostRecentImages, retry, replies, run);
      o.end.Raised? ==> exists i | 0 <= i < |replies| ::
        || replies[i] == ApiRaised(o.end.message)
        || (replies[i].Reply? && RunTools(replies[i].blocks, run) == Failure(o.end.message))
    decreases |replies|
  {
    if replies != [] {
      var o := LoopSpec(msgs, onlyNMostRecentImages, retry, replies, run);
      var step := ApiStep(Pruned(msgs, onlyNMostRecentImages), replies[0], run);
      var rest := replies[1..];
      if step.error.Some? && IsRateLimit(step.error.value) {
        RaisedComesFromReplies(step.next, onlyNMostRecentImages, retry + 1, rest, run);
        if o.end.Raised? {
          var i :| 0 <= i < |rest| && (|| rest[i] == ApiRaised(o.end.message)
            || (rest[i].Reply? && RunTools(rest[i].blocks, run) == Failure(o.end.message)));
          assert replies[i + 1] == rest[i];
        }
      } else if step.error.None? && step.answered {
        RaisedComesFromReplies(step.next, onlyNMostRecentImages, 0, rest, run);
        if o.end.Raised? {
          var i :| 0 <= i < |rest| && (|| rest[i] == ApiRaised(o.end.message)
            || (rest[i].Reply? && RunTools(rest[i].blocks, run) == Failure(o.end.message)));
          assert replies[i + 1] == rest[i];
        }
      } else if o.end.Raised? {
        assert replies[0] == ApiRaised(o.end.message)
          || (replies[0].Reply? && RunTools(replies[0].blocks, run) == Failure(o.end.message));
      }
    }
  }

  /** The pruning call at the top of each iteration, on the list held by
      the loop. */
  method PruneImages(msgs: seq<Message>, imagesToKeep: int) returns (pruned: seq<Message>)
    ensures pruned == FilterSpec(msgs, imagesToKeep, MinRemovalThreshold)
    ensures EraseMessages(pruned) == EraseMessages(msgs)
  {
    var a := new Message[|msgs|](k requires 0 <= k < |msgs| => msgs[k]);
    assert a[..] == msgs;
    FilterToNMostRecentImages(a, imagesToKeep, MinRemovalThreshold);
    FilterKeepsRecentImages(msgs, imagesToKeep, MinRemovalThreshold);
    pruned := a[..];
  }

  /** Appending a message extends the erased conversation by the erased
      message; an assistant message with blocks, or a user message
      answering the assistant message before it, keeps the exchange. */
  lemma AppendExchange(messages: seq<Message>, msgs: seq<Message>, m: Message)
    requires |msgs| >= |messages|
    requires EraseMessages(msgs)[..|messages|] == EraseMessages(messages)
    requires Exchange(EraseMessages(msgs)[|messages|..])
    requires m.content.BlockList?
    requires m.role == "assistant" ||
      (m.role == "user" && |msgs| > |messages| && msgs[|msgs| - 1].role == "assistant"
       && msgs[|msgs| - 1].content.BlockList?
       && ToolUseIds(EraseBlocks(msgs[|msgs| - 1].content.blocks)) != []
       && ResultIds(EraseBlocks(m.content.blocks)) == ToolUseIds(EraseBlocks(msgs[|msgs| - 1].content.blocks)))
    ensures EraseMessages(msgs + [m]) == EraseMessages(msgs) + [EraseMessage(m)]
    ensures EraseMessages(msgs + [m])[..|messages|] == EraseMessages(messages)
    ensures Exchange(EraseMessages(msgs + [m])[|messages|..])
  {
    var e := EraseMessages(msgs);
    var em := EraseMessage(m);
    assert EraseMessages(msgs + [m]) == e + [em];
    var tail := e[|messages|..];
    assert (e + [em])[|messages|..] == tail + [em];
    assert (e + [em])[..|messages|] == e[..|messages|];
    if m.role == "user" {
      var prev := msgs[|msgs| - 1];
      assert tail[|tail| - 1] == e[|msgs| - 1] == EraseMessage(prev);
    }
    ExchangeAppend(tail, em);
  }

  /** An exchange stays one when an assistant message with blocks, or a
      user message answering the assistant message before it, is added. */
  lemma ExchangeAppend(tail: seq<Message>, x: Message)
    requires Exchange(tail)
    requires x.role == "assistant" || x.role == "user"
    requires x.content.BlockList?
    requires x.role == "user" ==>
      && tail != [] && tail[|tail| - 1].role == "assistant" && tail[|tail| - 1].content.BlockList?
      && ToolUseIds(tail[|tail| - 1].content.blocks) != []
      && ResultIds(x.content.blocks) == ToolUseIds(tail[|tail| - 1].content.blocks)
    ensures Exchange(tail + [x])
  {
    var t := tail + [x];
    forall i | 0 <= i < |t|
      ensures && (t[i].role == "assistant" || t[i].role == "user")
              && t[i].content.BlockList?
              && (t[i].role == "user" ==>
                    && 0 < i && t[i - 1].role == "assistant" && t[i - 1].content.BlockList?
                    && ToolUseIds(t[i - 1].content.blocks) != []
                    && ResultIds(t[i].content.blocks) == ToolUseIds(t[i - 1].content.blocks))
    {
      if i < |tail| {
        assert t[i] == tail[i];
        if i > 0 {
          assert t[i - 1] == tail[i - 1];
        }
      } else {
        assert t[i] == x;
        if x.role == "user" {
          assert t[i - 1] == tail[|tail| - 1];
        }
      }
    }
  }
}
