/** The chat widget: the message list it shows, what it sends to the chat
    and conversation routes for one message, the typing delay of a reply,
    and the quick replies it offers. Timers are reduced to their effect:
    the typing delay is recorded and `TypingElapsed` is its expiry. */
module ChatInterface {
  import opened Wrappers
  import opened Text
  import opened Lists
  import opened Patterns
  import opened Calendar

  datatype Role = User | Assistant | System

  /** A chat message; its timestamp is not modelled. */
  datatype Message = Message(id: string, role: Role, content: string)

  const WelcomeText: string := "مرحباً بك في نظام حجز استراحة السلام! كيف يمكنني مساعدتك اليوم؟"
  const ErrorText: string := "عذراً، حدث خطأ في معالجة طلبك. يرجى المحاولة مرة أخرى."

  // -----------------------------------------------------------------------
  // Typing delay

  /** `Math.min(Math.max(length * 20, 1000), 3000)` in milliseconds. */
  function TypingTime(responseLength: nat): (t: int)
    ensures 1000 <= t <= 3000
    ensures 1000 <= 20 * responseLength <= 3000 ==> t == 20 * responseLength
    ensures 20 * responseLength < 1000 ==> t == 1000
    ensures 20 * responseLength > 3000 ==> t == 3000
  {
    var grown := 20 * responseLength;
    var atLeast := if grown > 1000 then grown else 1000;
    if atLeast < 3000 then atLeast else 3000
  }

  /** A longer reply never types faster. */
  lemma TypingTimeMonotone(a: nat, b: nat)
    requires a <= b
    ensures TypingTime(a) <= TypingTime(b)
  {
  }

  // -----------------------------------------------------------------------
  // The context sent with a message

  predicate IsNotSystem(m: Message) { m.role != System }

  predicate IsAssistantMessage(m: Message) { m.role == Assistant }

  /** `s.slice(-n)`: the last `n` elements, or all of `s` when it is shorter. */
  function Newest<T>(s: seq<T>, n: nat): (r: seq<T>)
    ensures |r| == if |s| < n then |s| else n
    ensures r == s[|s| - |r|..]
  {
    if |s| <= n then s else s[|s| - n..]
  }

  /** `messages.filter(not system).slice(-6)`. */
  function ContextWindow(messages: seq<Message>): (r: seq<Message>)
    ensures |r| == if Count(messages, IsNotSystem) < 6 then Count(messages, IsNotSystem) else 6
    ensures forall k :: 0 <= k < |r| ==> r[k].role != System
    ensures exists front :: Filter(messages, IsNotSystem) == front + r
  {
    var kept := Filter(messages, IsNotSystem);
    FilterLength(messages, IsNotSystem);
    var r := Newest(kept, 6);
    assert forall k :: 0 <= k < |r| ==> r[k] == kept[|kept| - |r| + k];
    assert kept == kept[..|kept| - |r|] + r;
    r
  }

  /** The transcript line of a message. */
  function Labelled(m: Message): string {
    (if m.role == User then "المستخدم" else "المساعد") + ": " + m.content
  }

  function Lines(messages: seq<Message>): (r: seq<string>)
    ensures |r| == |messages|
    ensures forall k :: 0 <= k < |r| ==> r[k] == Labelled(messages[k])
  {
    if |messages| == 0 then [] else [Labelled(messages[0])] + Lines(messages[1..])
  }

  /** The `context` string: the window's lines separated by a blank line. */
  function Context(messages: seq<Message>): string {
    Join(Lines(ContextWindow(messages)), "\n\n")
  }

  /** After a message that is not a system message, the context ends with
      that message's line, behind the earlier window. */
  lemma ContextEndsWithNewest(messages: seq<Message>, m: Message)
    requires m.role != System && Count(messages, IsNotSystem) >= 1
    ensures exists before: string :: Context(messages + [m]) == before + "\n\n" + Labelled(m)
  {
    var kept0 := Filter(messages, IsNotSystem);
    FilterSnoc(messages, m, IsNotSystem);
    FilterLength(messages, IsNotSystem);
    var front := NewestSnoc(kept0, m, 6);
    LinesSnoc(front, m);
    JoinSnoc(Lines(front), Labelled(m), "\n\n");
    var before := Join(Lines(front), "\n\n");
    assert Context(messages + [m]) == before + "\n\n" + Labelled(m);
  }

  /** The last `n` of a list grown by `x` are the `n - 1` before it, then `x`. */
  lemma NewestSnoc<T>(s: seq<T>, x: T, n: nat) returns (front: seq<T>)
    requires n >= 2 && |s| >= 1
    ensures Newest(s + [x], n) == front + [x] && |front| >= 1
  {
    var r := Newest(s + [x], n);
    front := r[..|r| - 1];
    assert r == front + [x];
  }

  lemma LinesSnoc(front: seq<Message>, m: Message)
    ensures Lines(front + [m]) == Lines(front) + [Labelled(m)]
  {
    var lines := Lines(front) + [Labelled(m)];
    forall k | 0 <= k < |front| + 1 ensures Lines(front + [m])[k] == lines[k] {
      if k < |front| {
        assert (front + [m])[k] == front[k];
      }
    }
  }

  /** System messages never reach the context. */
  lemma SystemMessagesIgnored(messages: seq<Message>, m: Message)
    requires m.role == System
    ensures Context(messages + [m]) == Context(messages)
  {
    FilterSnoc(messages, m, IsNotSystem);
    assert Filter(messages + [m], IsNotSystem) == Filter(messages, IsNotSystem);
    CountSnoc(messages, m, IsNotSystem);
    assert ContextWindow(messages + [m]) == ContextWindow(messages);
  }

  // -----------------------------------------------------------------------
  // Quick replies

  predicate AsksForDate(c: string) { Contains(c, "تاريخ") || Contains(c, "يوم") }
  predicate AsksForCode(c: string) { Contains(c, "رمز") || Contains(c, "كود") }
  predicate AsksForDetails(c: string) { Contains(c, "معلومات") || Contains(c, "بيانات") }
  predicate AsksToConfirm(c: string) { Contains(c, "تأكيد") || Contains(c, "إلغاء") }

  const CodeReplies: seq<string> := ["1234", "5678"]
  const DetailsReply: seq<string> := ["محمد علي، 0912345678، example@email.com"]
  const YesNoReplies: seq<string> := ["نعم", "لا"]
  const DefaultReplies: seq<string> := ["أريد حجز الاستراحة", "لدي استفسار عن حجز", "كيف يمكنني إلغاء الحجز؟"]

  /** The replies offered under an assistant message, the first rule whose
      words occur deciding. */
  function RepliesFor(content: string, today: Day): (r: seq<string>)
    ensures AsksForDate(content) ==> r == [IsoOfDay(today + 1), IsoOfDay(today + 7)]
    ensures !AsksForDate(content) && AsksForCode(content) ==> r == CodeReplies
    ensures !AsksForDate(content) && !AsksForCode(content) && AsksForDetails(content) ==> r == DetailsReply
    ensures (!AsksForDate(content) && !AsksForCode(content) && !AsksForDetails(content)
             && AsksToConfirm(content)) ==> r == YesNoReplies
    ensures (!AsksForDate(content) && !AsksForCode(content) && !AsksForDetails(content)
             && !AsksToConfirm(content)) ==> r == DefaultReplies
  {
    if AsksForDate(content) then [IsoOfDay(today + 1), IsoOfDay(today + 7)]
    else if AsksForCode(content) then CodeReplies
    else if AsksForDetails(content) then DetailsReply
    else if AsksToConfirm(content) then YesNoReplies
    else DefaultReplies
  }

  /** `getSuggestedReplies`: nothing before the first assistant message,
      then the replies for the latest assistant message. */
  function SuggestedReplies(messages: seq<Message>, today: Day): (r: seq<string>)
    ensures LastWhere(messages, IsAssistantMessage).None? ==> r == []
    ensures LastWhere(messages, IsAssistantMessage).Some? ==>
              r == RepliesFor(messages[LastWhere(messages, IsAssistantMessage).value].content, today)
  {
    var assistantMessages := Filter(messages, IsAssistantMessage);
    if |assistantMessages| == 0 then
      FilterLength(messages, IsAssistantMessage);
      []
    else
      FilterLastIsLastMatch(messages, IsAssistantMessage);
      RepliesFor(assistantMessages[|assistantMessages| - 1].content, today)
  }

  /** The suggested dates are tomorrow and a week from today in `yyyy-mm-dd`
      form, and each is its own first date match, so the date steps of both
      engines accept them as they are. */
  lemma DateRepliesAreDates(content: string, today: Day)
    requires AsksForDate(content)
    requires 0 <= CivilFromDays(today + 1).year <= 9999 && 0 <= CivilFromDays(today + 7).year <= 9999
    ensures forall k :: 0 <= k < |RepliesFor(content, today)| ==>
              IsIsoDateString(RepliesFor(content, today)[k])
              && Match(IsoDate, RepliesFor(content, today)[k]) == Some(RepliesFor(content, today)[k])
  {
    var r := RepliesFor(content, today);
    assert r == [IsoOfDay(today + 1), IsoOfDay(today + 7)];
    forall k | 0 <= k < |r| ensures IsIsoDateString(r[k]) && Match(IsoDate, r[k]) == Some(r[k]) {
      var d := if k == 0 then today + 1 else today + 7;
      assert r[k] == IsoOfDay(d);
      IsoOfDayShape(d);
      IsoStringMatchesItself(IsoOfDay(d));
    }
  }

  /** The code replies are four digits, which is what turns the e-mail
      indicator on. */
  lemma CodeRepliesLookLikeOtps()
    ensures IsOtpShaped(Trim(CodeReplies[0])) && IsOtpShaped(Trim(CodeReplies[1]))
  {
    TrimKeepsUnspaced("1234");
    TrimKeepsUnspaced("5678");
  }

  /** A string that starts and ends with a non-space character trims to itself. */
  lemma TrimKeepsUnspaced(s: string)
    requires |s| > 0 && !IsJsSpace(s[0]) && !IsJsSpace(s[|s| - 1])
    ensures Trim(s) == s
  {
  }

  /** `/^\d{4}$/`. */
  predicate IsOtpShaped(s: string) { |s| == 4 && AllDigits(s) }

  // -----------------------------------------------------------------------
  // The widget

  /** The calls a send makes: to the chat route and then to the
      conversation route. */
  datatype Request =
    | ChatPost(message: string, userId: string, context: string)
    | ConversationPost(userInput: string, aiResponse: string, userId: string)

  /** The message recording what the user sent at time `now`. */
  function UserMessage(now: nat, text: string): Message {
    Message("user-" + Decimal(now), User, text)
  }

  /** The message shown when the chat route fails at time `now`. */
  function ErrorMessage(now: nat): Message {
    Message("error-" + Decimal(now), Assistant, ErrorText)
  }

  class ChatSession {
    var messages: seq<Message>
    var input: string
    var isLoading: bool
    var isTyping: bool
    /** The reply the running typing timer will add, and its delay. */
    var pendingReply: Option<string>
    var typingDelay: int
    const userId: string

    ghost predicate Valid()
      reads this
    {
      (isTyping <==> pendingReply.Some?) && (pendingReply.Some? ==> 1000 <= typingDelay <= 3000)
    }

    /** The widget as mounted: the welcome message and nothing else. The
        user id is random and so a parameter. */
    constructor (userId: string)
      ensures Valid()
      ensures messages == [Message("welcome", Assistant, WelcomeText)]
      ensures input == "" && !isLoading && !isTyping && pendingReply == None
      ensures this.userId == userId
    {
      messages := [Message("welcome", Assistant, WelcomeText)];
      input := "";
      isLoading := false;
      isTyping := false;
      pendingReply := None;
      typingDelay := 0;
      this.userId := userId;
    }

    method SetInput(text: string)
      modifies this
      ensures input == text
      ensures messages == old(messages) && isLoading == old(isLoading) && isTyping == old(isTyping)
      ensures pendingReply == old(pendingReply) && typingDelay == old(typingDelay)
    {
      input := text;
    }

    /** `handleSendMessage` at time `now`, the chat route answering
        `chatAnswer` (`Failure` for a network error or a non-OK status).
        Blank input does nothing. Otherwise the user message is appended,
        the context is built from the list as it was before it, and either
        exactly one error message is appended or the reply starts typing.
        `emailIndicator` tells whether the e-mail indicator was shown. */
    method HandleSendMessage(now: nat, chatAnswer: Result<string>)
      returns (emailIndicator: bool, requests: seq<Request>)
      requires Valid()
      modifies this
      ensures Valid()
      ensures Trim(old(input)) == "" ==>
                !emailIndicator && requests == []
                && messages == old(messages) && input == old(input) && isLoading == old(isLoading)
                && isTyping == old(isTyping) && pendingReply == old(pendingReply)
                && typingDelay == old(typingDelay)
      ensures Trim(old(input)) != "" ==>
                (emailIndicator <==> IsOtpShaped(Trim(old(input))))
                && input == "" && !isLoading
      ensures Trim(old(input)) != "" && chatAnswer.Failure? ==>
                requests == [ChatPost(old(input), userId, Context(old(messages)))]
                && messages == old(messages) + [UserMessage(now, old(input)), ErrorMessage(now)]
                && isTyping == old(isTyping) && pendingReply == old(pendingReply)
                && typingDelay == old(typingDelay)
      ensures Trim(old(input)) != "" && chatAnswer.Success? ==>
                requests == [ChatPost(old(input), userId, Context(old(messages))),
                             ConversationPost(old(input), chatAnswer.value, userId)]
                && messages == old(messages) + [UserMessage(now, old(input))]
                && isTyping && pendingReply == Some(chatAnswer.value)
                && typingDelay == TypingTime(|chatAnswer.value|)
    {
      if Trim(input) == "" {
        return false, [];
      }
      emailIndicator, requests := Send(now, chatAnswer, Context(messages));
    }

    /** The non-blank case of `HandleSendMessage`, `context` being the
        context string built before the user message is appended. */
    method Send(now: nat, chatAnswer: Result<string>, context: string)
      returns (emailIndicator: bool, requests: seq<Request>)
      requires Valid()
      modifies this
      ensures Valid()
      ensures (emailIndicator <==> IsOtpShaped(Trim(old(input))))
              && input == "" && !isLoading
      ensures chatAnswer.Failure? ==>
                requests == [ChatPost(old(input), userId, context)]
                && messages == old(messages) + [UserMessage(now, old(input)), ErrorMessage(now)]
                && isTyping == old(isTyping) && pendingReply == old(pendingReply)
                && typingDelay == old(typingDelay)
      ensures chatAnswer.Success? ==>
                requests == [ChatPost(old(input), userId, context),
                             ConversationPost(old(input), chatAnswer.value, userId)]
                && messages == old(messages) + [UserMessage(now, old(input))]
                && isTyping && pendingReply == Some(chatAnswer.value)
                && typingDelay == TypingTime(|chatAnswer.value|)
    {
      var sent := input;
      emailIndicator := IsOtpShaped(Trim(sent));
      var chat := ChatPost(sent, userId, context);
      PostUserMessage(now);
      if chatAnswer.Failure? {
        requests := [chat];
        AppendError(now);
      } else {
        requests := [chat, ConversationPost(sent, chatAnswer.value, userId)];
        SimulateTyping(chatAnswer.value);
      }
    }

    /** The user message is appended and the input cleared; the loading
        flag, raised for the request and lowered in its `finally`, ends
        lowered. */
    method PostUserMessage(now: nat)
      modifies this
      ensures messages == old(messages) + [UserMessage(now, old(input))]
      ensures input == "" && !isLoading && isTyping == old(isTyping)
      ensures pendingReply == old(pendingReply) && typingDelay == old(typingDelay)
    {
      messages := messages + [UserMessage(now, input)];
      input := "";
      isLoading := false;
    }

    /** The error message shown when the chat route fails. */
    method AppendError(now: nat)
      modifies this
      ensures messages == old(messages) + [ErrorMessage(now)]
      ensures input == old(input) && isLoading == old(isLoading) && isTyping == old(isTyping)
      ensures pendingReply == old(pendingReply) && typingDelay == old(typingDelay)
    {
      messages := messages + [ErrorMessage(now)];
    }

    /** `simulateTyping`: a new timer replaces any running one. */
    method SimulateTyping(response: string)
      modifies this
      ensures isTyping && pendingReply == Some(response) && typingDelay == TypingTime(|response|)
      ensures messages == old(messages) && input == old(input) && isLoading == old(isLoading)
    {
      isTyping := true;
      typingDelay := TypingTime(|response|);
      pendingReply := Some(response);
    }

    /** The typing timer fires at time `now`: the reply is appended. */
    method TypingElapsed(now: nat)
      requires Valid() && isTyping
      modifies this
      ensures Valid()
      ensures messages == old(messages) + [Message("assistant-" + Decimal(now), Assistant, old(pendingReply).value)]
      ensures !isTyping && pendingReply == None
      ensures input == old(input) && isLoading == old(isLoading)
    {
      isTyping := false;
      messages := messages + [Message("assistant-" + Decimal(now), Assistant, pendingReply.value)];
      pendingReply := None;
    }

    /** The refresh button: a single welcome message. */
    method Reset()
      modifies this
      ensures messages == [Message("welcome-reset", Assistant, WelcomeText)]
      ensures input == old(input) && isLoading == old(isLoading) && isTyping == old(isTyping)
      ensures pendingReply == old(pendingReply) && typingDelay == old(typingDelay)
    {
      messages := [Message("welcome-reset", Assistant, WelcomeText)];
    }
  }
}
