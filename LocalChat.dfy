/**
 * The stand-alone chat panel: a list of sent texts that keeps only the last
 * `KeptMessages` (appending at the end, the opposite order of the history index),
 * and the text field the user types into.
 */
module LocalChat {
  import opened Wrappers
  import opened Seqs
  import Text
  import ConversationHistory

  /** The bound of `slice(-10)`. */
  const KeptMessages: nat := 10

  /**
   * The list after a non-blank `input` is sent: it stands last, verbatim, preceded by the
   * newest of the earlier messages in their order, the oldest dropped first.
   */
  function Sent(messages: seq<string>, input: string): (r: seq<string>)
    ensures |r| == Min(KeptMessages, |messages| + 1) && |r| <= KeptMessages
    ensures r[|r| - 1] == input
    ensures forall i :: 0 <= i < |r| - 1 ==> r[i] == messages[|messages| + 1 - |r| + i]
  {
    var all := messages + [input];
    var p := Max(|all| - KeptMessages, 0);
    assert TakeLast(all, KeptMessages) == all[p..];
    all[p..]
  }

  /** The list after one `handleSend` with `input` in the text field. */
  function SentIfFilled(messages: seq<string>, input: string): seq<string>
  {
    if Text.IsBlank(input) then messages else Sent(messages, input)
  }

  /** The list after `handleSend` runs with each of `xs` in the text field in turn. */
  function AfterSends(messages: seq<string>, xs: seq<string>): seq<string>
    decreases |xs|
  {
    if xs == [] then messages else AfterSends(SentIfFilled(messages, xs[0]), xs[1..])
  }

  /** Sends of blank text leave the list exactly as it was, even above the bound. */
  lemma {:induction false} BlankSendsKeepList(messages: seq<string>, xs: seq<string>)
    requires Text.NonBlank(xs) == []
    ensures AfterSends(messages, xs) == messages
    decreases |xs|
  {
    if xs != [] {
      BlankSendsKeepList(messages, xs[1..]);
    }
  }

  /**
   * Once anything non-blank was sent, the list is the last `KeptMessages` of the starting
   * list followed by every non-blank text in sending order, so it never exceeds the bound.
   */
  lemma {:induction false} AfterSendsKeepsMostRecent(messages: seq<string>, xs: seq<string>)
    requires Text.NonBlank(xs) != []
    ensures AfterSends(messages, xs) == TakeLast(messages + Text.NonBlank(xs), KeptMessages)
    ensures |AfterSends(messages, xs)| <= KeptMessages
    decreases |xs|
  {
    var x, rest := xs[0], xs[1..];
    if Text.IsBlank(x) {
      AfterSendsKeepsMostRecent(messages, rest);
    } else if Text.NonBlank(rest) == [] {
      BlankSendsKeepList(Sent(messages, x), rest);
    } else {
      AfterSendsKeepsMostRecent(Sent(messages, x), rest);
      SendThenMore(messages, x, rest);
    }
  }

  /** The step of the induction above where the first text is sent and more follow. */
  lemma SendThenMore(messages: seq<string>, x: string, rest: seq<string>)
    requires !Text.IsBlank(x)
    ensures TakeLast(Sent(messages, x) + Text.NonBlank(rest), KeptMessages)
         == TakeLast(messages + Text.NonBlank([x] + rest), KeptMessages)
  {
    var more := Text.NonBlank(rest);
    assert ([x] + rest)[1..] == rest;
    assert Text.NonBlank([x] + rest) == [x] + more;
    assert (messages + [x]) + more == messages + ([x] + more);
    assert Sent(messages, x) == TakeLast(messages + [x], KeptMessages);
    TakeLastOfTakeLast(messages + [x], more, KeptMessages);
  }

  /**
   * The two bounded lists are mirror images: prepending and keeping the first ten, read
   * backwards, is appending and keeping the last ten.
   */
  lemma MirrorsHistory(items: seq<string>, x: string)
    ensures Reversed(ConversationHistory.Prepended(items, x)) == Sent(Reversed(items), x)
  {
    ReversedTake([x] + items, ConversationHistory.MaxHistoryLength);
    assert ([x] + items)[1..] == items;
  }

  /** The state of the `Chat` component. */
  class ChatPanel {
    var messages: seq<string>
    var input: string

    /** Starts from the list restored from local storage, if one was saved; the field is empty. */
    constructor (saved: Option<seq<string>>)
      ensures messages == (if saved.Some? then saved.value else [])
      ensures input == ""
    {
      messages := if saved.Some? then saved.value else [];
      input := "";
    }

    /** The text field's change handler. */
    method SetInput(value: string)
      modifies this
      ensures input == value && messages == old(messages)
    {
      input := value;
    }

    /** `handleSend`: blank text is ignored; otherwise the text is appended and the field cleared. */
    method HandleSend()
      modifies this
      ensures Text.IsBlank(old(input)) ==> messages == old(messages) && input == old(input)
      ensures !Text.IsBlank(old(input)) ==> messages == Sent(old(messages), old(input)) && input == ""
      ensures |old(messages)| <= KeptMessages ==> |messages| <= KeptMessages
    {
      if Text.IsBlank(input) {
        return;
      }
      messages := Sent(messages, input);
      input := "";
    }
  }
}
