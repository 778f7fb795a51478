/** The compliance assistant's conversation (src/components/ComplianceChat.tsx):
    message history, the input box, the typing indicator and the suggested
    questions, driven by `handleSend` and the replies of the analysis backend.

    The backend call is split in two steps: `HandleSend` returns the request it
    sends, and `DeliverReply` applies the reply when it arrives. The reply
    (fetch, status check and JSON parsing) is an input of type `Reply`; the
    typing delay of `simulateTyping` is collapsed into `DeliverReply`. */
module Chat {
  import opened Wrappers
  import opened Catalog
  import opened Sampler

  datatype Role = User | Assistant

  datatype Message = Message(id: string, role: Role, content: string)

  /** The JSON body posted to `/api/analyze-document`. */
  datatype AnalyzeRequest = AnalyzeRequest(query: string, fileType: FileType, messageHistory: seq<Message>)

  /** What the `/api/analyze-document` call yields, after `response.json()`.
      `Failed` covers a network error, a non-ok status, an unparsable body and a
      payload without `answer` (reading its `length` throws in `simulateTyping`).
      `suggestedQuestions` is `None` when the payload lacks that field. */
  datatype Reply = Answered(answer: string, suggestedQuestions: Option<seq<string>>) | Failed

  /** What the initial `/api/suggested-questions/<fileType>` fetch yields. */
  datatype SuggestionFetch = Fetched(suggestedQuestions: seq<string>) | FetchFailed

  const Apology: string :=
    "I apologize, but I'm experiencing technical difficulties. Please try again in a moment."

  // ---------------------------------------------------------------------------
  // The send guard (line 55)

  /** The code points `String.prototype.trim` removes: ECMAScript's WhiteSpace
      and LineTerminator. */
  predicate IsJsWhitespace(c: char) {
    var n := c as int;
    || n == 0x09 || n == 0x0A || n == 0x0B || n == 0x0C || n == 0x0D || n == 0x20
    || n == 0xA0 || n == 0x1680 || (0x2000 <= n <= 0x200A) || n == 0x2028 || n == 0x2029
    || n == 0x202F || n == 0x205F || n == 0x3000 || n == 0xFEFF
  }

  predicate IsBlank(s: string) {
    forall i :: 0 <= i < |s| ==> IsJsWhitespace(s[i])
  }

  /** `s` without its leading whitespace. */
  function TrimStart(s: string): string {
    if s != [] && IsJsWhitespace(s[0]) then TrimStart(s[1..]) else s
  }

  /** `s` without its trailing whitespace. */
  function TrimEnd(s: string): string {
    if s != [] && IsJsWhitespace(s[|s| - 1]) then TrimEnd(s[..|s| - 1]) else s
  }

  /** Trimming the start removes a whitespace prefix and stops at the first other
      character. */
  lemma {:induction false} TrimStartSpec(s: string)
    ensures var r := TrimStart(s);
            && |r| <= |s| && r == s[|s| - |r|..]
            && (r == [] || !IsJsWhitespace(r[0]))
            && IsBlank(s[..|s| - |r|])
  {
    if s != [] && IsJsWhitespace(s[0]) {
      TrimStartSpec(s[1..]);
      var r := TrimStart(s[1..]);
      assert s[..|s| - |r|] == [s[0]] + s[1..][..|s[1..]| - |r|];
    }
  }

  /** Trimming the end removes a whitespace suffix and stops at the last other
      character. */
  lemma {:induction false} TrimEndSpec(s: string)
    ensures var r := TrimEnd(s);
            && |r| <= |s| && r == s[..|r|]
            && (r == [] || !IsJsWhitespace(r[|r| - 1]))
            && IsBlank(s[|r|..])
  {
    if s != [] && IsJsWhitespace(s[|s| - 1]) {
      TrimEndSpec(s[..|s| - 1]);
      var r := TrimEnd(s[..|s| - 1]);
      assert s[|r|..] == s[..|s| - 1][|r|..] + [s[|s| - 1]];
    }
  }

  /** `s.trim()`. */
  function Trim(s: string): string {
    TrimEnd(TrimStart(s))
  }

  /** `content.trim()` is the empty (falsy) string exactly when `content` is
      nothing but whitespace. */
  lemma TrimEmptyIffBlank(s: string)
    ensures Trim(s) == "" <==> IsBlank(s)
  {
    var t := TrimStart(s);
    TrimStartSpec(s);
    TrimEndSpec(t);
    assert s == s[..|s| - |t|] + t;
    if t != [] {
      assert !IsBlank(s) by {
        assert s[|s| - |t|] == t[0];
      }
    } else {
      assert s[..|s| - |t|] == s;
    }
  }

  /** The guard of `handleSend`: `if (!content.trim() || isAnalyzing) return;`. */
  predicate Accepts(content: string, isAnalyzing: bool) {
    !(Trim(content) == "" || isAnalyzing)
  }

  /** A message is sent exactly when no analysis is running and it holds a
      character that is not whitespace. */
  lemma AcceptsNonBlank(content: string, isAnalyzing: bool)
    ensures Accepts(content, isAnalyzing) <==> !isAnalyzing && !IsBlank(content)
  {
    TrimEmptyIffBlank(content);
  }

  // ---------------------------------------------------------------------------
  // Suggested questions (lines 30-44 and 94)

  /** `questions.slice(0, 3)`: the first three questions, or all if fewer. */
  function FirstThree(questions: seq<string>): (r: seq<string>)
    ensures |r| == Min(3, |questions|) && r <= questions
  {
    questions[..Min(3, |questions|)]
  }

  /** The suggestions set by the initial fetch effect: the fetched list in some
      shuffled order (`shuffled`, the outcome of sorting with a random
      comparator), cut to three; on any error, none. */
  function InitialSuggestions(fetch: SuggestionFetch, shuffled: seq<string>): (r: seq<string>)
    requires fetch.Fetched? ==> multiset(shuffled) == multiset(fetch.suggestedQuestions)
    ensures |r| <= 3
    ensures fetch.Fetched? ==> |r| == Min(3, |fetch.suggestedQuestions|)
    ensures fetch.Fetched? ==> forall q :: q in r ==> q in fetch.suggestedQuestions
    ensures fetch.Fetched? ==> multiset(r) <= multiset(fetch.suggestedQuestions)
    ensures fetch.FetchFailed? ==> r == []
  {
    if fetch.Fetched? then
      assert |shuffled| == |multiset(shuffled)| == |fetch.suggestedQuestions|;
      var r := FirstThree(shuffled);
      assert shuffled == r + shuffled[|r|..];
      assert forall q :: q in r ==> q in multiset(shuffled);
      r
    else []
  }

  // ---------------------------------------------------------------------------
  // Replies (lines 80-107)

  /** The assistant messages a reply appends. A successful reply appends its
      answer. A failure appends the apology. A reply without `suggestedQuestions`
      appends its answer, then the `slice` call throws and the apology follows. */
  function ReplyMessages(reply: Reply, answerId: string, apologyId: string): (added: seq<Message>)
    ensures 1 <= |added| <= 2
    ensures forall m :: m in added ==> m.role == Assistant
    ensures added[0].id == answerId && added[0].content == (if reply.Answered? then reply.answer else Apology)
    ensures |added| == 2 <==> reply.Answered? && reply.suggestedQuestions.None?
    ensures |added| == 2 ==> added[1] == Message(apologyId, Assistant, Apology)
  {
    match reply
    case Failed => [Message(answerId, Assistant, Apology)]
    case Answered(answer, questions) =>
      if questions.Some? then [Message(answerId, Assistant, answer)]
      else [Message(answerId, Assistant, answer), Message(apologyId, Assistant, Apology)]
  }

  /** The suggestions after a reply: the first three of a returned list, otherwise
      the current ones. */
  function ReplySuggestions(reply: Reply, current: seq<string>): (r: seq<string>)
    ensures reply.Answered? && reply.suggestedQuestions.Some? ==>
              r <= reply.suggestedQuestions.value && |r| == Min(3, |reply.suggestedQuestions.value|)
    ensures !(reply.Answered? && reply.suggestedQuestions.Some?) ==> r == current
  {
    if reply.Answered? && reply.suggestedQuestions.Some? then FirstThree(reply.suggestedQuestions.value)
    else current
  }

  /** One accepted question and its well-formed reply, success or failure, add
      exactly two messages to the history: the question exactly as typed, then one
      assistant message holding the answer or the apology. */
  lemma ExchangeAddsTwo(history: seq<Message>, content: string, reply: Reply, userId: string, answerId: string, apologyId: string)
    requires reply.Failed? || reply.suggestedQuestions.Some?
    ensures var after := history + [Message(userId, User, content)] + ReplyMessages(reply, answerId, apologyId);
            && |after| == |history| + 2
            && after[..|history|] == history
            && after[|history|] == Message(userId, User, content)
            && after[|history| + 1].role == Assistant
            && after[|history| + 1].content == (if reply.Answered? then reply.answer else Apology)
  {
    var added := ReplyMessages(reply, answerId, apologyId);
    var after := history + [Message(userId, User, content)] + added;
    assert after[|history| + 1] == added[0];
  }

  /** No message of `messages` carries `id`. */
  predicate FreshId(id: string, messages: seq<Message>) {
    forall i :: 0 <= i < |messages| ==> messages[i].id != id
  }

  /** Message ids come from `crypto.randomUUID()` and never repeat. */
  predicate DistinctMessageIds(messages: seq<Message>) {
    forall i, j :: 0 <= i < j < |messages| ==> messages[i].id != messages[j].id
  }

  lemma AppendFresh(messages: seq<Message>, added: seq<Message>)
    requires DistinctMessageIds(messages) && DistinctMessageIds(added)
    requires forall k :: 0 <= k < |added| ==> FreshId(added[k].id, messages)
    ensures DistinctMessageIds(messages + added)
  {
    var all := messages + added;
    forall i, j | 0 <= i < j < |all|
      ensures all[i].id != all[j].id
    {
      if j >= |messages| {
        assert all[j] == added[j - |messages|];
        if i < |messages| {
          assert all[i] == messages[i];
        } else {
          assert all[i] == added[i - |messages|];
        }
      }
    }
  }

  // ---------------------------------------------------------------------------
  // The session

  class ChatSession {
    /** The `fileType` prop. */
    var fileType: FileType
    var messages: seq<Message>
    var input: string
    var isTyping: bool
    var displayedQuestions: seq<string>
    /** Requests sent whose reply has not been delivered yet, oldest first. */
    var inFlight: seq<AnalyzeRequest>

    ghost predicate Valid()
      reads this
    {
      |displayedQuestions| <= 3 && DistinctMessageIds(messages)
    }

    /** At most one request is in flight, exactly while the typing indicator shows.
        The disabled controls keep this; `handleSend` itself does not. */
    ghost predicate Serialized()
      reads this
    {
      |inFlight| <= 1 && (isTyping <==> |inFlight| == 1)
    }

    /** `disabled={isAnalyzing || isTyping}` on the input, the send button and the
        suggestion buttons (lines 165, 180, 185), negated. */
    predicate ControlsEnabled(isAnalyzing: bool)
      reads this
    {
      !(isAnalyzing || isTyping)
    }

    /** What `handleSend(content)` does to the session and which request it sends. */
    twostate predicate Sent(content: string, isAnalyzing: bool, userId: string, new request: Option<AnalyzeRequest>)
      reads this
    {
      && fileType == old(fileType)
      && displayedQuestions == old(displayedQuestions)
      && if Accepts(content, isAnalyzing) then
           && messages == old(messages) + [Message(userId, User, content)]
           && input == "" && isTyping
           && request == Some(AnalyzeRequest(content, fileType, old(messages)))
           && inFlight == old(inFlight) + [request.value]
         else
           && messages == old(messages) && input == old(input) && isTyping == old(isTyping)
           && inFlight == old(inFlight) && request == None
    }

    /** The initial `useState` values. */
    constructor (ft: FileType)
      ensures Valid() && Serialized()
      ensures fileType == ft && messages == [] && input == "" && !isTyping
      ensures displayedQuestions == [] && inFlight == []
    {
      fileType := ft;
      messages := [];
      input := "";
      isTyping := false;
      displayedQuestions := [];
      inFlight := [];
    }

    /** A new `fileType` prop. The component stays mounted, so the history is
        kept; only the suggestion fetch is started again (see `ReceiveSuggestions`). */
    method ChangeFileType(ft: FileType)
      modifies this`fileType
      ensures fileType == ft
    {
      fileType := ft;
    }

    /** The end of the suggestion fetch effect (lines 31-41). */
    method ReceiveSuggestions(fetch: SuggestionFetch, shuffled: seq<string>)
      requires Valid()
      requires fetch.Fetched? ==> multiset(shuffled) == multiset(fetch.suggestedQuestions)
      modifies this`displayedQuestions
      ensures Valid()
      ensures displayedQuestions == InitialSuggestions(fetch, shuffled)
    {
      displayedQuestions := InitialSuggestions(fetch, shuffled);
    }

    /** `onChange` of the input box. */
    method EditInput(text: string)
      modifies this`input
      ensures input == text
    {
      input := text;
    }

    /** `handleSend(content)` up to the request (lines 54-78): the guard, the user
        message (content as given, not trimmed), clearing the input, the typing
        indicator, and the request carrying the history as it was before this send.
        Nothing here checks `isTyping`. */
    method HandleSend(content: string, isAnalyzing: bool, userId: string) returns (request: Option<AnalyzeRequest>)
      requires Valid() && FreshId(userId, messages)
      modifies this`messages, this`input, this`isTyping, this`inFlight
      ensures Valid()
      ensures Sent(content, isAnalyzing, userId, request)
    {
      var ok := Accepts(content, isAnalyzing);
      if !ok {
        return None;
      }
      var userMessage := Message(userId, User, content);
      var sent := AnalyzeRequest(content, fileType, messages);
      AppendFresh(messages, [userMessage]);
      messages := messages + [userMessage];
      input := "";
      isTyping := true;
      inFlight := inFlight + [sent];
      request := Some(sent);
    }

    /** The rest of `handleSend` (lines 79-107) once the reply to the `k`-th pending
        request is in: `simulateTyping` ends with `isTyping` false, the assistant
        message(s) are appended, and a successful reply replaces the suggestions. */
    method DeliverReply(k: nat, reply: Reply, answerId: string, apologyId: string)
      requires Valid() && k < |inFlight|
      requires FreshId(answerId, messages) && FreshId(apologyId, messages) && answerId != apologyId
      modifies this`messages, this`isTyping, this`displayedQuestions, this`inFlight
      ensures Valid()
      ensures messages == old(messages) + ReplyMessages(reply, answerId, apologyId)
      ensures displayedQuestions == ReplySuggestions(reply, old(displayedQuestions))
      ensures !isTyping
      ensures inFlight == old(inFlight[..k] + inFlight[k + 1..])
      ensures old(Serialized()) ==> Serialized()
    {
      var added := ReplyMessages(reply, answerId, apologyId);
      AppendFresh(messages, added);
      isTyping := false;
      messages := messages + added;
      displayedQuestions := ReplySuggestions(reply, displayedQuestions);
      inFlight := inFlight[..k] + inFlight[k + 1..];
    }

    /** A send through the controls (the send button, Enter in the input, a
        suggestion button): disabled controls do nothing, enabled ones call
        `handleSend`. These keep at most one request in flight. */
    method SendFromControls(content: string, isAnalyzing: bool, userId: string) returns (request: Option<AnalyzeRequest>)
      requires Valid() && FreshId(userId, messages)
      modifies this`messages, this`input, this`isTyping, this`inFlight
      ensures Valid()
      ensures old(ControlsEnabled(isAnalyzing)) ==> Sent(content, isAnalyzing, userId, request)
      ensures !old(ControlsEnabled(isAnalyzing)) ==>
                request == None && messages == old(messages) && input == old(input)
                && isTyping == old(isTyping) && inFlight == old(inFlight)
      ensures old(Serialized()) ==> Serialized()
    {
      if isAnalyzing || isTyping {
        return None;
      }
      request := HandleSend(content, isAnalyzing, userId);
    }

    /** The send button or Enter in the input: `handleSend(input)`. */
    method SendInput(isAnalyzing: bool, userId: string) returns (request: Option<AnalyzeRequest>)
      requires Valid() && FreshId(userId, messages)
      modifies this`messages, this`input, this`isTyping, this`inFlight
      ensures Valid()
      ensures old(ControlsEnabled(isAnalyzing)) ==> Sent(old(input), isAnalyzing, userId, request)
      ensures !old(ControlsEnabled(isAnalyzing)) ==>
                request == None && messages == old(messages) && input == old(input)
                && isTyping == old(isTyping) && inFlight == old(inFlight)
      ensures old(Serialized()) ==> Serialized()
    {
      request := SendFromControls(input, isAnalyzing, userId);
    }

    /** A suggestion button: `handleSend(question)` (line 164). */
    method ClickSuggestion(question: string, isAnalyzing: bool, userId: string) returns (request: Option<AnalyzeRequest>)
      requires Valid() && FreshId(userId, messages)
      requires question in displayedQuestions
      modifies this`messages, this`input, this`isTyping, this`inFlight
      ensures Valid()
      ensures old(ControlsEnabled(isAnalyzing)) ==> Sent(question, isAnalyzing, userId, request)
      ensures !old(ControlsEnabled(isAnalyzing)) ==>
                request == None && messages == old(messages) && input == old(input)
                && isTyping == old(isTyping) && inFlight == old(inFlight)
      ensures old(Serialized()) ==> Serialized()
    {
      request := SendFromControls(question, isAnalyzing, userId);
    }
  }
}
