/**
 * The chat hook: a transcript of user and assistant messages, an `isLoading`
 * flag and a `status` of 'idle', 'loading' or 'playing'. `sendMessage` is
 * split at its single `await`: `BeginSend` is the synchronous part (and the
 * whole call when a canned rule answers), `CompleteSend` is the continuation
 * once the external text generator settles. Each answer schedules a timer that
 * later sets the status back to idle; `TimerFire` is that timer running.
 */
module Chatbot {
  import opened Optional
  import opened JsString

  datatype Role = User | Assistant
  datatype Message = Message(role: Role, content: string)
  datatype Status = Idle | Loading | Playing

  /** How the generator's promise settled: with a text, or by throwing a value whose `message` may be missing. */
  datatype Outcome = Success(text: string) | Failure(errMessage: Option<string>)

  /** What the synchronous part of a send did. */
  datatype Start = Ignored | Answered(reply: string) | Requested

  const MathReply := "Ho ho ho! Let's check the math! 17 \U{00F7} 5 = 3 with remainder 2! \U{1F384}"
  const GlassesReply := "I have lost my glasses! They are black and usually sit right on my nose!"
  const RateLimitedReply := "Ho ho ho! Too many children are talking to me! Try again in a minute."
  const ModelNotFoundReply := "Ho ho ho! It seems I can't find that model in my magic bag. Please check the model name!"
  const UnknownErrorReply := "Ho ho ho! The North Pole wifi is snowy. Can you repeat that?"

  /** Longest time, in milliseconds, the status stays 'playing' after an answer. */
  const MaxSpeakingTime := 8000
  /** Milliseconds of speaking per UTF-16 code unit of the answer. */
  const SpeakingTimePerUnit := 60

  /** The text the canned rules look at: the message lower-cased, then trimmed. */
  function Key(message: string): string {
    Trim(Lower(message))
  }

  /** The canned answers, tested in order on the key; the first rule that matches wins. */
  function CannedReply(key: string): Option<string> {
    if Contains(key, "17 divided by 5") then Some(MathReply)
    else if Contains(key, "glasses") then Some(GlassesReply)
    else None
  }

  /** A rule of an ordered rule table: when `pattern` occurs in the text, answer `reply`. */
  datatype Rule = Rule(pattern: string, reply: string)

  const CannedRules := [Rule("17 divided by 5", MathReply), Rule("glasses", GlassesReply)]

  /** The reply of the first rule of `rules` whose pattern occurs in `text`. */
  function FirstMatch(rules: seq<Rule>, text: string): (r: Option<string>)
    ensures r.None? <==> forall i :: 0 <= i < |rules| ==> !Contains(text, rules[i].pattern)
    ensures r.Some? ==>
      exists i :: 0 <= i < |rules| && Contains(text, rules[i].pattern) && r.value == rules[i].reply
        && forall j :: 0 <= j < i ==> !Contains(text, rules[j].pattern)
  {
    if rules == [] then None
    else if Contains(text, rules[0].pattern) then Some(rules[0].reply)
    else
      var r := FirstMatch(rules[1..], text);
      assert forall i :: 1 <= i < |rules| ==> rules[i] == rules[1..][i - 1];
      r
  }

  /** The chain of canned rules is the table `CannedRules` read top-down. */
  lemma CannedReplyIsFirstMatch(key: string)
    ensures CannedReply(key) == FirstMatch(CannedRules, key)
  {
    assert CannedRules[1..] == [Rule("glasses", GlassesReply)];
    assert CannedRules[1..][1..] == [];
  }

  /** Trimming the lower-cased message never changes which canned answer is chosen. */
  lemma CannedReplyIgnoresSpace(message: string)
    ensures CannedReply(Key(message)) == CannedReply(Lower(message))
  {
    ContainsTrim(Lower(message), "17 divided by 5");
    ContainsTrim(Lower(message), "glasses");
  }

  /** The arithmetic question wins over a mention of the glasses. */
  lemma MathBeatsGlasses(key: string)
    requires Contains(key, "17 divided by 5") && Contains(key, "glasses")
    ensures CannedReply(key) == Some(MathReply) && MathReply != GlassesReply
  {
  }

  /** The classes of generator failures, each with one fixed answer. */
  datatype FailureKind = RateLimited | ModelNotFound | Unknown

  /** Error messages are tested for '429' first, then for '404'. */
  function Classify(errMessage: string): FailureKind {
    if Contains(errMessage, "429") then RateLimited
    else if Contains(errMessage, "404") then ModelNotFound
    else Unknown
  }

  function FallbackReply(kind: FailureKind): (reply: string)
    ensures reply != MathReply && reply != GlassesReply
  {
    match kind
    case RateLimited => RateLimitedReply
    case ModelNotFound => ModelNotFoundReply
    case Unknown => UnknownErrorReply
  }

  const ErrorRules := [Rule("429", RateLimitedReply), Rule("404", ModelNotFoundReply)]

  /** Classification is the table `ErrorRules` read top-down, with the wifi answer as the default. */
  lemma FallbackIsFirstMatch(errMessage: string)
    ensures FallbackReply(Classify(errMessage))
      == match FirstMatch(ErrorRules, errMessage) case Some(reply) => reply case None => UnknownErrorReply
  {
    assert ErrorRules[1..] == [Rule("404", ModelNotFoundReply)];
    assert ErrorRules[1..][1..] == [];
  }

  /**
   * The assistant text a settled generator call produces. A thrown value
   * without a string `message` makes the catch block itself throw, and then
   * there is no answer at all.
   */
  function ResponseFor(outcome: Outcome): (text: Option<string>)
    ensures outcome.Success? ==> text == Some(outcome.text)
    ensures outcome.Failure? && outcome.errMessage.Some? ==>
      text.Some? && (Contains(outcome.errMessage.value, "429") <==> text.value == RateLimitedReply)
    ensures outcome.Failure? && outcome.errMessage.Some? && !Contains(outcome.errMessage.value, "429") ==>
      (Contains(outcome.errMessage.value, "404") <==> text.value == ModelNotFoundReply)
    ensures outcome.Failure? && outcome.errMessage.Some? ==>
      (!Contains(outcome.errMessage.value, "429") && !Contains(outcome.errMessage.value, "404")
       <==> text == Some(UnknownErrorReply))
    ensures text.None? <==> outcome == Failure(None)
  {
    match outcome
    case Success(t) => Some(t)
    case Failure(Some(m)) => Some(FallbackReply(Classify(m)))
    case Failure(None) => None
  }

  function Min(a: int, b: int): int {
    if a < b then a else b
  }

  /** The delay of the idle timer: 60 ms per UTF-16 code unit of the answer, at most 8000 ms. */
  function IdleDelay(text: string): (ms: nat)
    ensures ms <= MaxSpeakingTime
    ensures ms <= SpeakingTimePerUnit * Utf16Length(text)
    ensures ms < MaxSpeakingTime ==> ms == SpeakingTimePerUnit * Utf16Length(text)
  {
    Min(Utf16Length(text) * SpeakingTimePerUnit, MaxSpeakingTime)
  }

  /** Longer answers keep the status 'playing' at least as long. */
  lemma IdleDelayMonotonic(a: string, b: string)
    requires Utf16Length(a) <= Utf16Length(b)
    ensures IdleDelay(a) <= IdleDelay(b)
  {
  }

  /** How many messages of `ms` have the given role. */
  function Count(ms: seq<Message>, role: Role): nat
  {
    if ms == [] then 0
    else Count(ms[..|ms| - 1], role) + (if ms[|ms| - 1].role == role then 1 else 0)
  }

  lemma CountAppend(ms: seq<Message>, m: Message, role: Role)
    ensures Count(ms + [m], role) == Count(ms, role) + (if m.role == role then 1 else 0)
  {
    assert (ms + [m])[..|ms|] == ms;
  }

  /** The state of one chat hook. */
  class ChatSession {
    var messages: seq<Message>
    var isLoading: bool
    var status: Status
    /** The prompts of generator calls whose promise has not settled yet, in the order they were made. */
    var inFlight: seq<string>
    /** The delays of idle timers that are scheduled and have not fired yet. */
    var timers: seq<nat>
    /** The sends whose catch block threw: their user message never gets an answer. */
    ghost var abandoned: nat

    /**
     * Every user message is answered, awaiting the generator, or abandoned;
     * 'loading' is only shown while `isLoading`; 'playing' always has an idle
     * timer pending that will end it.
     */
    ghost predicate Valid()
      reads this
    {
      Count(messages, User) == Count(messages, Assistant) + |inFlight| + abandoned
      && (status == Loading ==> isLoading)
      && (status == Playing ==> timers != [])
    }

    constructor ()
      ensures Valid()
      ensures messages == [] && !isLoading && status == Idle
      ensures inFlight == [] && timers == [] && abandoned == 0
    {
      messages, isLoading, status := [], false, Idle;
      inFlight, timers := [], [];
      abandoned := 0;
    }

    /** The effect of the synchronous part of `sendMessage(message)`, which returned `r`. */
    twostate predicate Sent(message: string, r: Start)
      reads this
    {
      var canned := CannedReply(Key(message));
      abandoned == old(abandoned)
      && (IsBlank(message) ==>
            r == Ignored && messages == old(messages) && isLoading == old(isLoading)
            && status == old(status) && inFlight == old(inFlight) && timers == old(timers))
      && (!IsBlank(message) && canned.Some? ==>
            r == Answered(canned.value)
            && messages == old(messages) + [Message(User, message), Message(Assistant, canned.value)]
            && !isLoading && status == Playing
            && inFlight == old(inFlight) && timers == old(timers) + [IdleDelay(canned.value)])
      && (!IsBlank(message) && canned.None? ==>
            r == Requested
            && messages == old(messages) + [Message(User, message)]
            && isLoading && status == Loading
            && inFlight == old(inFlight) + [message] && timers == old(timers))
    }

    /**
     * `sendMessage(message)` up to its `await`: ignore blank input; otherwise
     * record the untrimmed message, and either answer from a canned rule at
     * once or hand the untrimmed message to the generator.
     */
    method BeginSend(message: string) returns (r: Start)
      requires Valid()
      modifies this
      ensures Valid()
      ensures Sent(message, r)
    {
      if IsBlank(message) {
        return Ignored;
      }
      Ask(message);

      var lowerMsg := Key(message);
      var responseText := CannedReply(lowerMsg);
      if responseText.None? {
        inFlight := inFlight + [message];
        return Requested;
      }
      var reply := responseText.value;
      ghost var asked := messages;
      Answer(reply);
      assert messages == old(messages) + [Message(User, message), Message(Assistant, reply)] by {
        assert asked == old(messages) + [Message(User, message)];
        assert messages == asked + [Message(Assistant, reply)];
      }
      r := Answered(reply);
    }

    /**
     * The continuation of `sendMessage` once the generator call `inFlight[k]`
     * settles with `outcome`: append the answer or the fallback text for the
     * failure, or, when the catch block throws, leave everything as it is.
     */
    method CompleteSend(k: nat, outcome: Outcome)
      requires Valid() && k < |inFlight|
      modifies this
      ensures Valid()
      ensures inFlight == old(inFlight[..k] + inFlight[k + 1..])
      ensures match ResponseFor(outcome)
        case Some(text) =>
          messages == old(messages) + [Message(Assistant, text)]
          && !isLoading && status == Playing
          && timers == old(timers) + [IdleDelay(text)] && abandoned == old(abandoned)
        case None =>
          messages == old(messages) && isLoading == old(isLoading) && status == old(status)
          && timers == old(timers) && abandoned == old(abandoned) + 1
    {
      var responseText: string;
      match outcome {
        case Success(text) =>
          responseText := text;
        case Failure(errMessage) =>
          if errMessage.None? {
            inFlight := inFlight[..k] + inFlight[k + 1..];
            abandoned := abandoned + 1;
            return;
          }
          var m := errMessage.value;
          responseText := FallbackReply(Classify(m));
      }
      Answer(responseText);
      inFlight := inFlight[..k] + inFlight[k + 1..];
    }

    /** The idle timer runs: the status becomes 'idle' whatever it was; nothing else changes. */
    method TimerFire(k: nat)
      requires Valid() && k < |timers|
      modifies this
      ensures Valid()
      ensures timers == old(timers[..k] + timers[k + 1..])
      ensures status == Idle
      ensures messages == old(messages) && isLoading == old(isLoading)
      ensures inFlight == old(inFlight) && abandoned == old(abandoned)
    {
      timers := timers[..k] + timers[k + 1..];
      status := Idle;
    }

    /** The start of `sendMessage`: show loading and record the user's message. */
    method Ask(message: string)
      modifies this
      ensures messages == old(messages) + [Message(User, message)]
      ensures isLoading && status == Loading
      ensures timers == old(timers) && inFlight == old(inFlight) && abandoned == old(abandoned)
      ensures Count(messages, User) == old(Count(messages, User)) + 1
      ensures Count(messages, Assistant) == old(Count(messages, Assistant))
    {
      CountAppend(messages, Message(User, message), User);
      CountAppend(messages, Message(User, message), Assistant);
      isLoading := true;
      status := Loading;
      messages := messages + [Message(User, message)];
    }

    /** The common tail of `sendMessage`: append the answer, show it playing, stop loading, schedule the idle timer. */
    method Answer(text: string)
      modifies this
      ensures messages == old(messages) + [Message(Assistant, text)]
      ensures !isLoading && status == Playing
      ensures timers == old(timers) + [IdleDelay(text)]
      ensures inFlight == old(inFlight) && abandoned == old(abandoned)
      ensures Count(messages, User) == old(Count(messages, User))
      ensures Count(messages, Assistant) == old(Count(messages, Assistant)) + 1
    {
      CountAppend(messages, Message(Assistant, text), User);
      CountAppend(messages, Message(Assistant, text), Assistant);
      messages := messages + [Message(Assistant, text)];
      status := Playing;
      isLoading := false;
      timers := timers + [IdleDelay(text)];
    }
  }

  /** `message` is not blank and no canned rule answers it, so sending it calls the generator. */
  predicate NeedsGenerator(message: string) {
    !IsBlank(message) && CannedReply(Key(message)).None?
  }

  /**
   * Nothing in `sendMessage` stops a second send while the first is awaited:
   * the first answer lands after the second question, and when it arrives
   * `isLoading` becomes false although the second call is still pending.
   */
  method AnswerWhileAwaiting(m1: string, m2: string, answer: string) returns (s: ChatSession)
    requires NeedsGenerator(m1) && NeedsGenerator(m2)
    ensures s.Valid()
    ensures !s.isLoading && s.status == Playing && s.inFlight == [m2]
    ensures |s.messages| == 3 && s.messages[1] == Message(User, m2) && s.messages[2] == Message(Assistant, answer)
  {
    s := new ChatSession();
    var a := s.BeginSend(m1);
    var b := s.BeginSend(m2);
    s.CompleteSend(0, Success(answer));
  }

  /**
   * The idle timer of an earlier answer does not know about a later send: it
   * sets the status to 'idle' while that send is still loading.
   */
  method IdleWhileLoading(s: ChatSession, message: string)
    requires s.Valid() && s.status == Playing && NeedsGenerator(message)
    modifies s
    ensures s.Valid()
    ensures s.status == Idle && s.isLoading && s.inFlight == old(s.inFlight) + [message]
  {
    var r := s.BeginSend(message);
    s.TimerFire(0);
  }
}
