/**
 * The chat panel: a text field whose `input` state the user edits, a send
 * button and the Enter key, both of which hand the trimmed text to the chat
 * hook's `sendMessage`, and a view of the last two transcript entries. The
 * panel renders nothing unless it has a chat hook and is open.
 */
module ChatPanel {
  import opened Optional
  import opened JsString
  import opened Chatbot

  /** The `messages` value the panel receives: an array, or anything else. */
  datatype MessagesValue = ArrayValue(items: seq<Message>) | OtherValue

  /** What the panel reads from the chat hook. */
  datatype HookValue = HookValue(messages: MessagesValue, isLoading: bool)

  /** What the panel shows: the visible entries, and whether the send button is enabled. */
  datatype View = View(shown: seq<Message>, sendEnabled: bool)

  /** Where `Array.prototype.slice(start)` begins on an array of length `n`: negative starts count from the end. */
  function SliceStart(n: nat, start: int): (i: nat)
    ensures i <= n
  {
    if start < 0 then (if n + start < 0 then 0 else n + start)
    else if start > n then n
    else start
  }

  /** `Array.isArray(messages) ? messages.slice(-2) : []`. */
  function LastTwo(messages: MessagesValue): seq<Message> {
    match messages
    case ArrayValue(items) => items[SliceStart(|items|, -2)..]
    case OtherValue => []
  }

  /** The view shows the last `min(2, n)` entries of an array, in their order, and nothing for any other value. */
  lemma LastTwoSpec(messages: MessagesValue)
    ensures messages.OtherValue? ==> LastTwo(messages) == []
    ensures messages.ArrayValue? ==>
      var ms := messages.items;
      |LastTwo(messages)| == Min(2, |ms|)
      && forall k :: 0 <= k < |LastTwo(messages)| ==> LastTwo(messages)[k] == ms[|ms| - |LastTwo(messages)| + k]
  {
  }

  /** Appending one entry shows it as the last one, after the entry that used to be last. */
  lemma LastTwoAppend(ms: seq<Message>, m: Message)
    ensures LastTwo(ArrayValue(ms + [m])) == (if ms == [] then [] else [ms[|ms| - 1]]) + [m]
  {
    var r := LastTwo(ArrayValue(ms + [m]));
    if ms != [] {
      assert r == [ms[|ms| - 1], m];
    } else {
      assert r == [m];
    }
  }

  /** `ChatUI`'s rendering decision: nothing without a chat hook or when closed; otherwise the last two entries, and a send button disabled while loading. */
  function Render(chatbot: Option<HookValue>, isOpen: bool): (v: Option<View>)
    ensures v.None? <==> chatbot.None? || !isOpen
    ensures v.Some? ==> v.value.shown == LastTwo(chatbot.value.messages)
    ensures v.Some? ==> (v.value.sendEnabled <==> !chatbot.value.isLoading)
  {
    if chatbot.None? || !isOpen then None
    else Some(View(LastTwo(chatbot.value.messages), !chatbot.value.isLoading))
  }

  /** The panel's input field, wired to one chat session. */
  class ChatInput {
    var input: string
    const session: ChatSession

    constructor (session: ChatSession)
      ensures input == [] && this.session == session
    {
      input := [];
      this.session := session;
    }

    /** The field's `onChange`: the input becomes what the user typed. */
    method Change(value: string)
      modifies this
      ensures input == value
    {
      input := value;
    }

    /**
     * `handleSend`: send the trimmed input and clear the field when something
     * is left after trimming; otherwise do nothing.
     */
    method HandleSend() returns (r: Option<Start>)
      requires session.Valid()
      modifies this, session
      ensures session.Valid()
      ensures r.None? <==> IsBlank(old(input))
      ensures r.None? ==> input == old(input) && unchanged(session)
      ensures r.Some? ==> input == [] && session.Sent(Trim(old(input)), r.value)
    {
      if IsBlank(input) {
        return None;
      }
      var start := session.BeginSend(Trim(input));
      input := [];
      r := Some(start);
    }

    /** `handleKeyDown`: Enter without Shift prevents the default and sends; every other key does nothing. */
    method HandleKeyDown(key: string, shiftKey: bool) returns (prevented: bool, r: Option<Start>)
      requires session.Valid()
      modifies this, session
      ensures session.Valid()
      ensures prevented <==> key == "Enter" && !shiftKey
      ensures !prevented ==> r.None? && input == old(input) && unchanged(session)
      ensures prevented ==> (r.None? <==> IsBlank(old(input)))
      ensures prevented && r.None? ==> input == old(input) && unchanged(session)
      ensures prevented && r.Some? ==> input == [] && session.Sent(Trim(old(input)), r.value)
    {
      if key == "Enter" && !shiftKey {
        prevented := true;
        r := HandleSend();
      } else {
        prevented, r := false, None;
      }
    }

    /** A click on the send button, which is disabled while the session is loading. */
    method ClickSend() returns (r: Option<Start>)
      requires session.Valid()
      modifies this, session
      ensures session.Valid()
      ensures old(session.isLoading) ==> r.None? && input == old(input) && unchanged(session)
      ensures !old(session.isLoading) ==> (r.None? <==> IsBlank(old(input)))
      ensures !old(session.isLoading) && r.None? ==> input == old(input) && unchanged(session)
      ensures !old(session.isLoading) && r.Some? ==> input == [] && session.Sent(Trim(old(input)), r.value)
    {
      if session.isLoading {
        return None;
      }
      r := HandleSend();
    }
  }

  /** Text sent from the panel is already trimmed, so the chat hook's own blank check and trim have nothing left to do. */
  lemma PanelSendsTrimmed(input: string)
    requires !IsBlank(input)
    ensures !IsBlank(Trim(input)) && Trim(Trim(input)) == Trim(input)
  {
    TrimIdempotent(input);
  }

  /**
   * Only the button looks at `isLoading`: Enter sends a second message while
   * the first is still loading.
   */
  method EnterWhileLoading(c: ChatInput)
    requires c.session.Valid() && c.session.isLoading && NeedsGenerator(Trim(c.input))
    modifies c, c.session
    ensures c.session.Valid()
    ensures c.input == [] && c.session.isLoading
    ensures c.session.inFlight == old(c.session.inFlight) + [Trim(old(c.input))]
  {
    var prevented, r := c.HandleKeyDown("Enter", false);
  }
}
