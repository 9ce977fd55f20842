/**
 * The chat message store of `useChat`: an append-only transcript of user and assistant
 * turns with a loading flag and the last error text. `addMessage` awaits the backend, so
 * it is split in two steps, the synchronous part up to the `await` (`Submit`) and the
 * part that runs when the call settles (`Settle`); several calls may be outstanding and
 * settle in any order.
 */
module MessageStore {
  import opened Wrappers
  import Seqs
  import Text

  datatype Role = User | Assistant

  /** A `new Date()` value: stored in a turn, never computed with. */
  datatype Instant = Instant(millis: int)

  datatype Message = Message(role: Role, content: string, timestamp: Instant, imageUrl: Option<string>)

  /** What a rejected `sendMessage` call throws: an `Error` object, or any other value. */
  datatype Thrown = ErrorObject(message: string) | OtherValue

  /** How a `sendMessage` call settles: with the server's reply, or by throwing. */
  datatype ChatOutcome = Replied(reply: string) | Threw(thrown: Thrown)

  const ErrorPrefix: string := "Sorry, there was an error: "
  const FallbackErrorText: string := "An error occurred"

  /** The text recorded for a failure: the `Error`'s message, or the fallback for anything else thrown. */
  function ErrorText(t: Thrown): string {
    match t
    case ErrorObject(message) => message
    case OtherValue => FallbackErrorText
  }

  /** The assistant turn a settled call appends: the reply itself, or an apology embedding the failure. */
  function ReplyTurn(outcome: ChatOutcome, at: Instant): (m: Message)
    ensures m.role == Assistant && m.timestamp == at && m.imageUrl == None
    ensures outcome.Replied? ==> m.content == outcome.reply
    ensures outcome.Threw? ==> |m.content| == |ErrorPrefix| + |ErrorText(outcome.thrown)|
    ensures outcome.Threw? ==> m.content[..|ErrorPrefix|] == ErrorPrefix
    ensures outcome.Threw? ==> m.content[|ErrorPrefix|..] == ErrorText(outcome.thrown)
  {
    match outcome
    case Replied(reply) => Message(Assistant, reply, at, None)
    case Threw(thrown) => Message(Assistant, ErrorPrefix + ErrorText(thrown), at, None)
  }

  /** Reads the failure detail back out of an apology turn's text; `None` for any other text. */
  function ErrorDetail(content: string): Option<string> {
    if |ErrorPrefix| <= |content| && content[..|ErrorPrefix|] == ErrorPrefix
    then Some(content[|ErrorPrefix|..])
    else None
  }

  /** No failure detail is lost: the apology for any thrown value gives back exactly its error text. */
  lemma ErrorDetailRoundTrip(t: Thrown, at: Instant)
    ensures ErrorDetail(ReplyTurn(Threw(t), at).content) == Some(ErrorText(t))
  {
  }

  /** The store's state; `pending` counts the `addMessage` calls still awaiting the backend. */
  datatype Store = Store(messages: seq<Message>, isLoading: bool, error: Option<string>, pending: nat)

  const Empty := Store([], false, None, 0)

  /**
   * `addMessage` up to its `await`: blank text changes nothing; otherwise the error is
   * cleared, loading starts, and one user turn holding the text verbatim is appended.
   */
  function Submit(s: Store, text: string, at: Instant): (r: Store)
    ensures Text.IsBlank(text) ==> r == s
    ensures !Text.IsBlank(text) ==>
      && |r.messages| == |s.messages| + 1 && r.messages[..|s.messages|] == s.messages
      && r.messages[|s.messages|] == Message(User, text, at, None)
      && r.isLoading && r.error == None && r.pending == s.pending + 1
  {
    if Text.IsBlank(text) then s
    else Store(s.messages + [Message(User, text, at, None)], true, None, s.pending + 1)
  }

  /**
   * `addMessage` after its `await`: exactly one assistant turn is appended, a failure is
   * recorded as the error, and loading stops (even if other calls are still pending).
   */
  function Settle(s: Store, outcome: ChatOutcome, at: Instant): (r: Store)
    requires s.pending > 0
    ensures |r.messages| == |s.messages| + 1 && r.messages[..|s.messages|] == s.messages
    ensures r.messages[|s.messages|] == ReplyTurn(outcome, at)
    ensures r.messages[|s.messages|].role == Assistant
    ensures !r.isLoading && r.pending == s.pending - 1
    ensures r.error == if outcome.Threw? then Some(ErrorText(outcome.thrown)) else s.error
  {
    Store(s.messages + [ReplyTurn(outcome, at)], false,
          if outcome.Threw? then Some(ErrorText(outcome.thrown)) else s.error,
          s.pending - 1)
  }

  /** `addRawMessage`: the given turn is appended as it is, nothing else changes. */
  function AddRaw(s: Store, m: Message): (r: Store)
    ensures |r.messages| == |s.messages| + 1
    ensures r.messages[..|s.messages|] == s.messages && r.messages[|s.messages|] == m
    ensures r.isLoading == s.isLoading && r.error == s.error && r.pending == s.pending
  {
    s.(messages := s.messages + [m])
  }

  /** `clearChat`: no turns and no error; the loading flag and the outstanding calls are untouched. */
  function Clear(s: Store): (r: Store)
    ensures r.messages == [] && r.error == None
    ensures r.isLoading == s.isLoading && r.pending == s.pending
  {
    s.(messages := [], error := None)
  }

  /** Everything that can happen to the store, in the order it happens. */
  datatype Event =
    | SubmitCall(text: string, at: Instant)
    | SettleCall(outcome: ChatOutcome, at: Instant)
    | AddRawMessage(message: Message)
    | ClearChat

  function Step(s: Store, e: Event): Store
    requires e.SettleCall? ==> s.pending > 0
  {
    match e
    case SubmitCall(text, at) => Submit(s, text, at)
    case SettleCall(outcome, at) => Settle(s, outcome, at)
    case AddRawMessage(m) => AddRaw(s, m)
    case ClearChat => Clear(s)
  }

  /** Every call that settles was submitted before and has not settled yet. */
  predicate Feasible(s: Store, evs: seq<Event>)
    decreases |evs|
  {
    evs == [] || ((evs[0].SettleCall? ==> s.pending > 0) && Feasible(Step(s, evs[0]), evs[1..]))
  }

  function Run(s: Store, evs: seq<Event>): Store
    requires Feasible(s, evs)
    decreases |evs|
  {
    if evs == [] then s else Run(Step(s, evs[0]), evs[1..])
  }

  /** Only `addMessage` calls: no raw appends and no clearing. */
  predicate OnlyCalls(evs: seq<Event>) {
    forall i :: 0 <= i < |evs| ==> evs[i].SubmitCall? || evs[i].SettleCall?
  }

  /** The texts of the submitted calls that were not blank, in the order they were issued. */
  function SubmittedTexts(evs: seq<Event>): seq<string>
    decreases |evs|
  {
    if evs == [] then []
    else if evs[0].SubmitCall? && !Text.IsBlank(evs[0].text) then [evs[0].text] + SubmittedTexts(evs[1..])
    else SubmittedTexts(evs[1..])
  }

  /** The assistant texts the settled calls produce, in the order they settled. */
  function SettledReplies(evs: seq<Event>): seq<string>
    decreases |evs|
  {
    if evs == [] then []
    else if evs[0].SettleCall? then [ReplyTurn(evs[0].outcome, evs[0].at).content] + SettledReplies(evs[1..])
    else SettledReplies(evs[1..])
  }

  /** The contents of the turns with the given role, in transcript order. */
  function ContentsOf(ms: seq<Message>, role: Role): seq<string>
    decreases |ms|
  {
    if ms == [] then []
    else if ms[0].role == role then [ms[0].content] + ContentsOf(ms[1..], role)
    else ContentsOf(ms[1..], role)
  }

  lemma {:induction false} ContentsOfAppend(a: seq<Message>, b: seq<Message>, role: Role)
    ensures ContentsOf(a + b, role) == ContentsOf(a, role) + ContentsOf(b, role)
    decreases |a|
  {
    if a == [] {
      assert a + b == b;
    } else {
      assert (a + b)[1..] == a[1..] + b;
      ContentsOfAppend(a[1..], b, role);
    }
  }

  /**
   * Without a clear, the transcript is only ever appended to: the earlier turns stay
   * as they were, and each submitted call, settled call and raw append adds one turn.
   */
  lemma {:induction false} AppendOnly(s: Store, evs: seq<Event>)
    requires Feasible(s, evs)
    requires forall i :: 0 <= i < |evs| ==> !evs[i].ClearChat?
    ensures |Run(s, evs).messages| >= |s.messages|
    ensures Run(s, evs).messages[..|s.messages|] == s.messages
    decreases |evs|
  {
    if evs != [] {
      var t := Step(s, evs[0]);
      AppendOnly(t, evs[1..]);
      assert t.messages[..|s.messages|] == s.messages;
    }
  }

  /** The turns one `addMessage` step adds after the unchanged transcript, by role. */
  lemma StepTurns(s: Store, e: Event)
    requires e.SubmitCall? || (e.SettleCall? && s.pending > 0)
    ensures |Step(s, e).messages| >= |s.messages|
    ensures Step(s, e).messages[..|s.messages|] == s.messages
    ensures ContentsOf(Step(s, e).messages[|s.messages|..], User)
         == (if e.SubmitCall? && !Text.IsBlank(e.text) then [e.text] else [])
    ensures ContentsOf(Step(s, e).messages[|s.messages|..], Assistant)
         == (if e.SettleCall? then [ReplyTurn(e.outcome, e.at).content] else [])
    ensures Step(s, e).pending + (if e.SettleCall? then 1 else 0)
         == s.pending + (if e.SubmitCall? && !Text.IsBlank(e.text) then 1 else 0)
  {
    var added := Step(s, e).messages[|s.messages|..];
    if e.SettleCall? {
      assert added == [ReplyTurn(e.outcome, e.at)];
    } else if !Text.IsBlank(e.text) {
      assert added == [Message(User, e.text, e.at, None)];
    } else {
      assert added == [];
    }
  }

  /**
   * However the outstanding calls interleave, the turns they add are: one user turn per
   * non-blank submission, in issue order, and one assistant turn per settled call, in
   * settling order; the count of outstanding calls moves accordingly.
   */
  lemma {:induction false} CallsDeliverEveryTurn(s: Store, evs: seq<Event>)
    requires Feasible(s, evs) && OnlyCalls(evs)
    ensures |Run(s, evs).messages| == |s.messages| + |SubmittedTexts(evs)| + |SettledReplies(evs)|
    ensures Run(s, evs).messages[..|s.messages|] == s.messages
    ensures ContentsOf(Run(s, evs).messages[|s.messages|..], User) == SubmittedTexts(evs)
    ensures ContentsOf(Run(s, evs).messages[|s.messages|..], Assistant) == SettledReplies(evs)
    ensures Run(s, evs).pending + |SettledReplies(evs)| == s.pending + |SubmittedTexts(evs)|
    decreases |evs|
  {
    if evs != [] {
      var t := Step(s, evs[0]);
      assert OnlyCalls(evs[1..]) by {
        forall i | 0 <= i < |evs[1..]| ensures evs[1..][i].SubmitCall? || evs[1..][i].SettleCall? {
          assert evs[1..][i] == evs[i + 1];
        }
      }
      StepTurns(s, evs[0]);
      CallsDeliverEveryTurn(t, evs[1..]);
      var r := Run(t, evs[1..]).messages;
      Seqs.PrefixOfPrefix(s.messages, t.messages, r);
      ContentsOfAppend(t.messages[|s.messages|..], r[|t.messages|..], User);
      ContentsOfAppend(t.messages[|s.messages|..], r[|t.messages|..], Assistant);
    }
  }

  /**
   * N non-blank submissions and N settlements, in any interleaving, add exactly 2N turns
   * and leave no call outstanding that was not outstanding before.
   */
  lemma InterleavedCallsAddTwoTurnsEach(s: Store, evs: seq<Event>)
    requires Feasible(s, evs) && OnlyCalls(evs)
    requires |SubmittedTexts(evs)| == |SettledReplies(evs)|
    ensures |Run(s, evs).messages| == |s.messages| + 2 * |SubmittedTexts(evs)|
    ensures Run(s, evs).pending == s.pending
  {
    CallsDeliverEveryTurn(s, evs);
  }

  /** The state held by `useChat`; the outstanding calls are bookkeeping of the model. */
  class ChatStore {
    var messages: seq<Message>
    var isLoading: bool
    var error: Option<string>
    ghost var pending: nat

    ghost function State(): Store
      reads this
    {
      Store(messages, isLoading, error, pending)
    }

    constructor ()
      ensures State() == Empty
    {
      messages, isLoading, error := [], false, None;
      pending := 0;
    }

    /** `addMessage` up to the `await`; `sent` tells whether the backend is called. */
    method AddMessage(userMessage: string, at: Instant) returns (sent: bool)
      modifies this
      ensures State() == Submit(old(State()), userMessage, at)
      ensures sent == !Text.IsBlank(userMessage)
    {
      if Text.IsBlank(userMessage) {
        return false;
      }
      error := None;
      isLoading := true;
      messages := messages + [Message(User, userMessage, at, None)];
      pending := pending + 1;
      sent := true;
    }

    /** The rest of `addMessage`, run when its backend call settles with `outcome`. */
    method FinishAddMessage(outcome: ChatOutcome, at: Instant)
      requires pending > 0
      modifies this
      ensures State() == Settle(old(State()), outcome, at)
    {
      match outcome {
        case Replied(_) =>
        case Threw(thrown) => error := Some(ErrorText(thrown));
      }
      messages := messages + [ReplyTurn(outcome, at)];
      isLoading := false;
      pending := pending - 1;
    }

    method AddRawMessage(message: Message)
      modifies this
      ensures State() == AddRaw(old(State()), message)
    {
      messages := messages + [message];
    }

    method ClearChat()
      modifies this
      ensures State() == Clear(old(State()))
    {
      messages := [];
      error := None;
    }
  }
}
