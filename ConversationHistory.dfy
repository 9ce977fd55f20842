/**
 * The conversation history index: the prompts the user submitted, newest first and at
 * most `MaxHistoryLength` of them, with the selected entry and a single-slot scroll target
 * (the transcript position the selected entry should bring into view).
 */
module ConversationHistory {
  import opened Wrappers
  import opened Seqs
  import Text

  const MaxHistoryLength: nat := 10

  /**
   * The list after a non-blank `newItem` is added: it stands first, verbatim, and the
   * previous entries follow in their order, the oldest dropped once the cap is reached.
   */
  function Prepended(items: seq<string>, newItem: string): (r: seq<string>)
    ensures |r| == Min(MaxHistoryLength, |items| + 1) && |r| <= MaxHistoryLength
    ensures r[0] == newItem
    ensures forall i :: 1 <= i < |r| ==> r[i] == items[i - 1]
  {
    var all := [newItem] + items;
    assert Take(all, MaxHistoryLength) == all[..Min(MaxHistoryLength, |all|)];
    all[..Min(MaxHistoryLength, |all|)]
  }

  /** The list after one `addConversationItem(newItem)` call. */
  function Added(items: seq<string>, newItem: string): seq<string>
  {
    if Text.IsBlank(newItem) then items else Prepended(items, newItem)
  }

  /** The list after `addConversationItem` is called with each of `xs` in turn. */
  function AfterAdds(items: seq<string>, xs: seq<string>): seq<string>
    decreases |xs|
  {
    if xs == [] then items else AfterAdds(Added(items, xs[0]), xs[1..])
  }

  /**
   * Whatever is added, the list holds the most recent non-blank prompts, newest first,
   * followed by the survivors of the starting list, and never more than the cap.
   */
  lemma {:induction false} AfterAddsKeepsMostRecent(items: seq<string>, xs: seq<string>)
    requires |items| <= MaxHistoryLength
    ensures AfterAdds(items, xs) == Take(Reversed(Text.NonBlank(xs)) + items, MaxHistoryLength)
    ensures |AfterAdds(items, xs)| <= MaxHistoryLength
    decreases |xs|
  {
    if xs == [] {
      assert Take(items, MaxHistoryLength) == items;
    } else {
      var x, rest := xs[0], xs[1..];
      var newer := Reversed(Text.NonBlank(rest));
      AfterAddsKeepsMostRecent(Added(items, x), rest);
      if !Text.IsBlank(x) {
        TakeOfTake(newer, [x] + items, MaxHistoryLength);
        assert newer + ([x] + items) == Reversed(Text.NonBlank(xs)) + items;
      }
    }
  }

  /**
   * Adding a prompt that is already listed at position `j` keeps both copies, as long as the
   * old copy is not the one evicted: there is no de-duplication.
   */
  lemma DuplicatesKept(items: seq<string>, x: string, j: nat)
    requires j < |items| && items[j] == x && j + 1 < MaxHistoryLength
    ensures j + 1 < |Prepended(items, x)|
    ensures Prepended(items, x)[0] == x && Prepended(items, x)[j + 1] == x
  {
  }

  /** The state of `useConversationHistory`. */
  class History {
    var items: seq<string>
    /** The highlighted entry (`null` before the first add or selection). */
    var activeIndex: Option<int>
    /** The last scroll target recorded by a selection (`messageIndexRef`). */
    var messageIndex: Option<int>

    ghost predicate Valid()
      reads this
    {
      |items| <= MaxHistoryLength
    }

    constructor ()
      ensures Valid()
      ensures items == [] && activeIndex == None && messageIndex == None
    {
      items, activeIndex, messageIndex := [], None, None;
    }

    /** `addConversationItem`: a blank prompt is ignored; any other goes first and becomes active. */
    method AddConversationItem(newItem: string)
      requires Valid()
      modifies this
      ensures Valid()
      ensures Text.IsBlank(newItem) ==> items == old(items) && activeIndex == old(activeIndex)
      ensures !Text.IsBlank(newItem) ==> items == Prepended(old(items), newItem) && activeIndex == Some(0)
      ensures messageIndex == old(messageIndex)
    {
      if Text.IsBlank(newItem) {
        return;
      }
      items := Prepended(items, newItem);
      activeIndex := Some(0);
    }

    /** `selectConversation`: the index becomes active; the scroll target changes only when one is given. */
    method SelectConversation(index: int, targetMessage: Option<int>)
      requires Valid()
      modifies this
      ensures Valid()
      ensures items == old(items) && activeIndex == Some(index)
      ensures messageIndex == if targetMessage.Some? then targetMessage else old(messageIndex)
    {
      activeIndex := Some(index);
      if targetMessage.Some? {
        messageIndex := targetMessage;
      }
    }

    /** `getSelectedMessageIndex`: the last recorded scroll target, `None` if none was ever given. */
    method GetSelectedMessageIndex() returns (target: Option<int>)
      ensures target == messageIndex
    {
      target := messageIndex;
    }
  }
}
