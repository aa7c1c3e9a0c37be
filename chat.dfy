/**
 * The chat panel's submission state machine (ChatInterface.tsx).
 *
 * The component holds three state cells: the message list, the text box
 * and the busy flag. `generateImage` is asynchronous; it is split here into
 * its synchronous prefix (`Begin`: raise the busy flag) and its continuation
 * after the wait (`Complete`: append the answer, lower the flag). The prompt
 * that the suspended call has captured is kept as `pendingPrompt`.
 *
 * The first half of the module states every handler as a pure transition on
 * a `ChatState` value, together with the invariant `WellFormed` and the
 * lemmas about whole runs; the class `ChatInterface` at the end holds the
 * same state in mutable fields and its methods are proved to perform
 * exactly those transitions.
 */
module Chat {
  import opened Wrappers
  import opened Text

  datatype Sender = User | Ai

  /**
   * One entry of the conversation. `id` and `timestamp` come from the clock
   * (`Date.now()`, `new Date()`) and are opaque values chosen by the caller;
   * nothing makes them unique or increasing.
   */
  datatype Message = Message(id: string, sender: Sender, content: string, imageUrl: Option<string>, timestamp: nat)

  /** The six prompts offered on the empty conversation screen. */
  const Suggestions: seq<string> := [
    "A futuristic city at sunset with flying cars",
    "A magical forest with glowing mushrooms",
    "An astronaut riding a horse on Mars",
    "A steampunk robot in a Victorian library",
    "A dragon made of crystal and light",
    "An underwater palace with colorful coral"
  ]

  const AnswerPrefix: string := "I've generated an image based on your prompt: \""
  const AnswerSuffix: string := "\""

  /** The text of the generated answer: the fixed lead-in, then the prompt verbatim, then a closing quote. */
  function AnswerContent(prompt: string): (r: string)
    ensures |r| == |AnswerPrefix| + |prompt| + 1
    ensures r[..|AnswerPrefix|] == AnswerPrefix
    ensures r[|AnswerPrefix|..|AnswerPrefix| + |prompt|] == prompt
    ensures r[|r| - 1] == '"'
  {
    var r := AnswerPrefix + prompt + AnswerSuffix;
    assert r[|AnswerPrefix|..|AnswerPrefix| + |prompt|] == prompt;
    r
  }

  /** Reads the quoted prompt back out of an answer's text, if it has the answer's shape. */
  function QuotedPrompt(content: string): (r: Option<string>)
    ensures r.Some? ==> AnswerContent(r.value) == content
  {
    var n, k := |content|, |AnswerPrefix|;
    if n >= k + 1 && content[..k] == AnswerPrefix && content[n - 1..] == AnswerSuffix then
      assert content == content[..k] + content[k..n - 1] + content[n - 1..];
      Some(content[k..n - 1])
    else
      None
  }

  /** The answer quotes its prompt verbatim, and the prompt can be read back from it. */
  lemma AnswerQuotesPrompt(prompt: string)
    ensures AnswerContent(prompt)[|AnswerPrefix|..|AnswerPrefix| + |prompt|] == prompt
    ensures QuotedPrompt(AnswerContent(prompt)) == Some(prompt)
  {
  }

  /** The message `handleSubmit` logs: from the user, the text as typed, no image. */
  function UserMessage(id: string, content: string, timestamp: nat): (m: Message)
    ensures m.sender == User && m.content == content && m.imageUrl == None
    ensures m.id == id && m.timestamp == timestamp
  {
    Message(id, User, content, None, timestamp)
  }

  /** The message `generateImage` logs: from the assistant, quoting the prompt, with the image. */
  function AnswerMessage(id: string, prompt: string, imageUrl: string, timestamp: nat): (m: Message)
    ensures m.sender == Ai && m.imageUrl == Some(imageUrl)
    ensures QuotedPrompt(m.content) == Some(prompt)
    ensures m.id == id && m.timestamp == timestamp
  {
    AnswerQuotesPrompt(prompt);
    Message(id, Ai, AnswerContent(prompt), Some(imageUrl), timestamp)
  }

  /**
   * The component's state: `messages`, `inputValue`, `isGenerating`, and the
   * prompt held by a `generateImage` call that is waiting for its result.
   */
  datatype ChatState = ChatState(messages: seq<Message>, inputValue: string, isGenerating: bool, pendingPrompt: Option<string>)

  const Initial: ChatState := ChatState([], "", false, None)

  // ---------------------------------------------------------------------
  // Transitions
  // ---------------------------------------------------------------------

  /** The guard of `handleSubmit`: the trimmed input is non-empty and no generation is in flight. */
  predicate AcceptsSubmit(st: ChatState)
    ensures AcceptsSubmit(st) <==> !IsBlank(st.inputValue) && !st.isGenerating
  {
    TrimEmptyIffBlank(st.inputValue);
    !(Trim(st.inputValue) == [] || st.isGenerating)
  }

  /** The synchronous start of `generateImage(prompt)`: raise the busy flag; the call then waits. */
  function BeginStep(st: ChatState, prompt: string): (r: ChatState)
    ensures r.isGenerating && r.pendingPrompt == Some(prompt)
    ensures r.messages == st.messages && r.inputValue == st.inputValue
  {
    st.(isGenerating := true, pendingPrompt := Some(prompt))
  }

  /** `handleSubmit`: when the guard holds, log the prompt, clear the input and start generating. */
  function SubmitStep(st: ChatState, id: string, timestamp: nat): (r: ChatState)
    ensures st.messages <= r.messages && |r.messages| <= |st.messages| + 1
  {
    if !AcceptsSubmit(st) then st
    else
      var logged := st.(messages := st.messages + [UserMessage(id, st.inputValue, timestamp)], inputValue := "");
      BeginStep(logged, st.inputValue)
  }

  /** The continuation of `generateImage` after the wait: append the answer and lower the busy flag. */
  function CompleteStep(st: ChatState, id: string, imageUrl: string, timestamp: nat): (r: ChatState)
    requires st.pendingPrompt.Some?
    ensures st.messages <= r.messages && |r.messages| == |st.messages| + 1
    ensures !r.isGenerating && r.pendingPrompt == None && r.inputValue == st.inputValue
  {
    st.(messages := st.messages + [AnswerMessage(id, st.pendingPrompt.value, imageUrl, timestamp)],
        isGenerating := false, pendingPrompt := None)
  }

  /** `handleSuggestionClick` and the text box's `onChange`: overwrite the input. */
  function InputStep(st: ChatState, text: string): (r: ChatState)
    ensures r.inputValue == text
    ensures r.messages == st.messages && r.isGenerating == st.isGenerating && r.pendingPrompt == st.pendingPrompt
  {
    st.(inputValue := text)
  }

  // ---------------------------------------------------------------------
  // One step at a time
  // ---------------------------------------------------------------------

  /** A blank or whitespace-only input makes a submit change nothing at all. */
  lemma SubmitBlankIsNoOp(st: ChatState, id: string, timestamp: nat)
    requires IsBlank(st.inputValue)
    ensures SubmitStep(st, id, timestamp) == st
  {
  }

  /** While a generation is in flight a submit changes nothing, whatever the input. */
  lemma SubmitWhileGeneratingIsNoOp(st: ChatState, id: string, timestamp: nat)
    requires st.isGenerating
    ensures SubmitStep(st, id, timestamp) == st
  {
  }

  /**
   * An accepted submit appends exactly one user message carrying the input
   * as typed (untrimmed, without an image), clears the input, raises the
   * busy flag and hands the same text to the generation.
   */
  lemma SubmitAccepted(st: ChatState, id: string, timestamp: nat)
    requires !IsBlank(st.inputValue) && !st.isGenerating
    ensures var r := SubmitStep(st, id, timestamp);
      && |r.messages| == |st.messages| + 1
      && r.messages[..|st.messages|] == st.messages
      && r.messages[|st.messages|] == Message(id, User, st.inputValue, None, timestamp)
      && r.inputValue == ""
      && r.isGenerating
      && r.pendingPrompt == Some(st.inputValue)
  {
  }

  /** A submit adds a message exactly when the input is not blank and nothing is being generated. */
  lemma SubmitGrowsLogIff(st: ChatState, id: string, timestamp: nat)
    ensures SubmitStep(st, id, timestamp).messages != st.messages <==> !IsBlank(st.inputValue) && !st.isGenerating
  {
  }

  /**
   * Completion appends exactly one answer: from the assistant, quoting the
   * prompt that was submitted, carrying the image. The busy flag is lowered
   * and the input is left alone.
   */
  lemma CompleteAnswers(st: ChatState, id: string, imageUrl: string, timestamp: nat)
    requires st.pendingPrompt.Some? && imageUrl != []
    ensures var r := CompleteStep(st, id, imageUrl, timestamp);
      && |r.messages| == |st.messages| + 1
      && r.messages[..|st.messages|] == st.messages
      && r.messages[|st.messages|].sender == Ai
      && r.messages[|st.messages|] == AnswerMessage(id, st.pendingPrompt.value, imageUrl, timestamp)
      && QuotedPrompt(r.messages[|st.messages|].content) == Some(st.pendingPrompt.value)
      && r.messages[|st.messages|].imageUrl.Some? && r.messages[|st.messages|].imageUrl.value != []
      && !r.isGenerating && r.pendingPrompt == None
      && r.inputValue == st.inputValue
  {
  }

  /** Every suggestion passes the submit guard once it is in the input and the panel is idle. */
  lemma SuggestionIsSubmittable(st: ChatState, k: nat)
    requires k < |Suggestions| && !st.isGenerating
    ensures AcceptsSubmit(InputStep(st, Suggestions[k]))
  {
    var s := Suggestions[k];
    assert !IsWhitespace(s[0]);
    assert !IsBlank(s);
    TrimEmptyIffBlank(s);
  }

  // ---------------------------------------------------------------------
  // The invariant of every reachable state
  // ---------------------------------------------------------------------

  /**
   * The log alternates prompt, answer, prompt, answer, ...: every even
   * position holds a non-blank user prompt without an image, and every odd
   * position holds the assistant's answer, with an image, to the prompt just
   * before it. A trailing unanswered prompt exists exactly while a generation
   * is in flight, and it is the prompt that generation holds.
   */
  ghost predicate WellFormed(st: ChatState) {
    var m := st.messages;
    && (st.isGenerating <==> st.pendingPrompt.Some?)
    && (st.isGenerating <==> |m| % 2 == 1)
    && (forall i :: 0 <= i < |m| && i % 2 == 0 ==>
          m[i].sender == User && m[i].imageUrl == None && !IsBlank(m[i].content))
    && (forall i :: 0 <= i < |m| && i % 2 == 1 ==>
          m[i].sender == Ai && m[i].imageUrl.Some? && m[i].imageUrl.value != []
          && m[i].content == AnswerContent(m[i - 1].content))
    && (st.pendingPrompt.Some? ==> st.pendingPrompt.value == m[|m| - 1].content)
  }

  /**
   * Ordering: every answer sits right after the prompt it quotes, so the
   * prompt's position is strictly smaller.
   */
  lemma AnswerFollowsItsPrompt(st: ChatState, j: nat)
    requires WellFormed(st) && j < |st.messages| && st.messages[j].sender == Ai
    ensures 0 < j && st.messages[j - 1].sender == User
    ensures QuotedPrompt(st.messages[j].content) == Some(st.messages[j - 1].content)
  {
  }

  /**
   * Every prompt is answered by the very next message, or it is the last
   * message and its generation is still in flight.
   */
  lemma PromptIsAnsweredNext(st: ChatState, i: nat)
    requires WellFormed(st) && i < |st.messages| && st.messages[i].sender == User
    ensures i + 1 < |st.messages| ==>
      st.messages[i + 1].sender == Ai && QuotedPrompt(st.messages[i + 1].content) == Some(st.messages[i].content)
    ensures i + 1 == |st.messages| ==> st.isGenerating && st.pendingPrompt == Some(st.messages[i].content)
  {
  }

  // ---------------------------------------------------------------------
  // Runs
  // ---------------------------------------------------------------------

  /** What can happen to the panel: the three handlers and the end of a pending generation. */
  datatype Event =
    | SubmitForm(id: string, timestamp: nat)
    | GenerationDone(id: string, imageUrl: string, timestamp: nat)
    | SuggestionClick(suggestion: string)
    | InputChange(text: string)

  /** A generation can only finish while one is in flight, and it always yields an image. */
  predicate Enabled(st: ChatState, e: Event) {
    e.GenerationDone? ==> st.pendingPrompt.Some? && e.imageUrl != []
  }

  function Step(st: ChatState, e: Event): ChatState
    requires Enabled(st, e)
  {
    match e
    case SubmitForm(id, ts) => SubmitStep(st, id, ts)
    case GenerationDone(id, url, ts) => CompleteStep(st, id, url, ts)
    case SuggestionClick(s) => InputStep(st, s)
    case InputChange(t) => InputStep(st, t)
  }

  /** Every event of `evs` can happen in turn, starting from `st`. */
  predicate Schedulable(st: ChatState, evs: seq<Event>)
    decreases |evs|
  {
    evs == [] || (Enabled(st, evs[0]) && Schedulable(Step(st, evs[0]), evs[1..]))
  }

  function Run(st: ChatState, evs: seq<Event>): ChatState
    requires Schedulable(st, evs)
    decreases |evs|
  {
    if evs == [] then st else Run(Step(st, evs[0]), evs[1..])
  }

  /** Appending a non-blank prompt to an idle well-formed log gives a well-formed busy state. */
  lemma LogPromptPreservesWellFormed(st: ChatState, u: Message)
    requires WellFormed(st) && !st.isGenerating
    requires u.sender == User && u.imageUrl == None && !IsBlank(u.content)
    ensures WellFormed(ChatState(st.messages + [u], "", true, Some(u.content)))
  {
  }

  /** An accepted prompt extends a well-formed log at its even end; a rejected one changes nothing. */
  lemma SubmitPreservesWellFormed(st: ChatState, id: string, timestamp: nat)
    requires WellFormed(st)
    ensures WellFormed(SubmitStep(st, id, timestamp))
  {
    if AcceptsSubmit(st) {
      TrimEmptyIffBlank(st.inputValue);
      var u := UserMessage(id, st.inputValue, timestamp);
      LogPromptPreservesWellFormed(st, u);
      assert SubmitStep(st, id, timestamp) == ChatState(st.messages + [u], "", true, Some(st.inputValue));
    }
  }

  /** The answer fills the odd position after the pending prompt. */
  lemma CompletePreservesWellFormed(st: ChatState, id: string, imageUrl: string, timestamp: nat)
    requires WellFormed(st) && st.pendingPrompt.Some? && imageUrl != []
    ensures WellFormed(CompleteStep(st, id, imageUrl, timestamp))
  {
  }

  lemma StepPreservesWellFormed(st: ChatState, e: Event)
    requires WellFormed(st) && Enabled(st, e)
    ensures WellFormed(Step(st, e))
  {
    match e
    case SubmitForm(id, ts) => SubmitPreservesWellFormed(st, id, ts);
    case GenerationDone(id, url, ts) => CompletePreservesWellFormed(st, id, url, ts);
    case SuggestionClick(s) =>
    case InputChange(t) =>
  }

  /** The invariant survives any schedulable run. */
  lemma {:induction false} RunPreservesWellFormed(st: ChatState, evs: seq<Event>)
    requires WellFormed(st) && Schedulable(st, evs)
    ensures WellFormed(Run(st, evs))
    decreases |evs|
  {
    if evs != [] {
      StepPreservesWellFormed(st, evs[0]);
      RunPreservesWellFormed(Step(st, evs[0]), evs[1..]);
    }
  }

  /** Every state reachable from the freshly mounted panel satisfies the invariant. */
  lemma ReachableIsWellFormed(evs: seq<Event>)
    requires Schedulable(Initial, evs)
    ensures WellFormed(Run(Initial, evs))
  {
    RunPreservesWellFormed(Initial, evs);
  }

  /** The log only grows at its end: the old log is a prefix of the log after any run. */
  lemma {:induction false} RunExtendsLog(st: ChatState, evs: seq<Event>)
    requires Schedulable(st, evs)
    ensures st.messages <= Run(st, evs).messages
    decreases |evs|
  {
    if evs != [] {
      RunExtendsLog(Step(st, evs[0]), evs[1..]);
    }
  }

  /** Running `a` and then `b` is running `a + b`. */
  lemma {:induction false} RunConcat(st: ChatState, a: seq<Event>, b: seq<Event>)
    requires Schedulable(st, a + b)
    ensures Schedulable(st, a) && Schedulable(Run(st, a), b)
    ensures Run(st, a + b) == Run(Run(st, a), b)
    decreases |a|
  {
    if a != [] {
      assert (a + b)[0] == a[0];
      assert (a + b)[1..] == a[1..] + b;
      RunConcat(Step(st, a[0]), a[1..], b);
    } else {
      assert a + b == b;
    }
  }

  /** The log at any earlier point of a run is a prefix of the log at its end. */
  lemma EarlierLogIsPrefix(st: ChatState, evs: seq<Event>, k: nat)
    requires Schedulable(st, evs) && k <= |evs|
    ensures Schedulable(st, evs[..k])
    ensures Run(st, evs[..k]).messages <= Run(st, evs).messages
  {
    var before, after := evs[..k], evs[k..];
    assert before + after == evs;
    RunConcat(st, before, after);
    var mid := Run(st, before);
    RunExtendsLog(mid, after);
    assert Run(st, evs) == Run(mid, after);
  }

  /**
   * A prompt submitted from an idle panel is logged at position n, and the
   * answer the subsequent completion produces for it lands at position
   * n + 1, even if handlers run in between.
   */
  lemma {:induction false} SubmitThenAnswer(st: ChatState, id: string, ts: nat, between: seq<Event>, id': string, url: string, ts': nat)
    requires !IsBlank(st.inputValue) && !st.isGenerating
    requires Schedulable(SubmitStep(st, id, ts), between)
    requires forall e :: e in between ==> !e.GenerationDone?
    ensures var n, mid := |st.messages|, Run(SubmitStep(st, id, ts), between);
      && mid.pendingPrompt == Some(st.inputValue)
      && mid.messages == st.messages + [UserMessage(id, st.inputValue, ts)]
      && (url != [] ==>
            var last := CompleteStep(mid, id', url, ts');
            && |last.messages| == n + 2
            && last.messages[n] == UserMessage(id, st.inputValue, ts)
            && last.messages[n + 1] == AnswerMessage(id', st.inputValue, url, ts'))
    decreases |between|
  {
    TrimEmptyIffBlank(st.inputValue);
    var s1 := SubmitStep(st, id, ts);
    assert s1.messages == st.messages + [UserMessage(id, st.inputValue, ts)];
    BusyRunKeepsLog(s1, between);
  }

  /** While a generation is in flight, submits and input changes leave the log and the pending prompt alone. */
  lemma {:induction false} BusyRunKeepsLog(st: ChatState, evs: seq<Event>)
    requires st.isGenerating && Schedulable(st, evs)
    requires forall e :: e in evs ==> !e.GenerationDone?
    ensures var r := Run(st, evs);
      r.messages == st.messages && r.isGenerating && r.pendingPrompt == st.pendingPrompt
    decreases |evs|
  {
    if evs != [] {
      assert evs[0] in evs;
      assert forall e :: e in evs[1..] ==> e in evs;
      BusyRunKeepsLog(Step(st, evs[0]), evs[1..]);
    }
  }

  // ---------------------------------------------------------------------
  // The component
  // ---------------------------------------------------------------------

  class ChatInterface {
    var messages: seq<Message>
    var inputValue: string
    var isGenerating: bool
    /** The prompt a suspended `generateImage` call holds, if one is waiting. */
    var pendingPrompt: Option<string>

    function State(): ChatState
      reads this
    {
      ChatState(messages, inputValue, isGenerating, pendingPrompt)
    }

    ghost predicate Valid()
      reads this
    {
      WellFormed(State())
    }

    /** Mounting: an empty conversation, an empty text box, nothing in flight. */
    constructor ()
      ensures Valid() && State() == Initial
    {
      messages := [];
      inputValue := "";
      isGenerating := false;
      pendingPrompt := None;
    }

    /** `handleSubmit`. */
    method Submit(id: string, timestamp: nat)
      requires Valid()
      modifies this
      ensures Valid() && State() == SubmitStep(old(State()), id, timestamp)
      ensures IsBlank(old(inputValue)) || old(isGenerating) ==>
        messages == old(messages) && inputValue == old(inputValue) && isGenerating == old(isGenerating)
      ensures !IsBlank(old(inputValue)) && !old(isGenerating) ==>
        && messages == old(messages) + [UserMessage(id, old(inputValue), timestamp)]
        && inputValue == "" && isGenerating && pendingPrompt == Some(old(inputValue))
    {
      ghost var before := State();
      if Trim(inputValue) == [] || isGenerating {
        assert !AcceptsSubmit(before);
        return;
      }
      assert AcceptsSubmit(before);
      var user := UserMessage(id, inputValue, timestamp);
      messages := messages + [user];
      var prompt := inputValue;
      inputValue := "";
      LogPromptPreservesWellFormed(before, user);
      Begin(prompt);
    }

    /** The part of `generateImage` that runs before its wait. */
    method Begin(prompt: string)
      requires WellFormed(BeginStep(State(), prompt))
      modifies this
      ensures Valid() && State() == BeginStep(old(State()), prompt)
      ensures isGenerating && pendingPrompt == Some(prompt)
      ensures messages == old(messages) && inputValue == old(inputValue)
    {
      isGenerating := true;
      pendingPrompt := Some(prompt);
    }

    /** The part of `generateImage` that runs once the wait is over; `imageUrl` is the generated image. */
    method Complete(id: string, imageUrl: string, timestamp: nat)
      requires Valid() && isGenerating && imageUrl != []
      modifies this
      ensures Valid() && State() == CompleteStep(old(State()), id, imageUrl, timestamp)
      ensures messages == old(messages) + [AnswerMessage(id, old(pendingPrompt).value, imageUrl, timestamp)]
      ensures !isGenerating && pendingPrompt == None && inputValue == old(inputValue)
    {
      StepPreservesWellFormed(State(), GenerationDone(id, imageUrl, timestamp));
      var prompt := pendingPrompt.value;
      messages := messages + [AnswerMessage(id, prompt, imageUrl, timestamp)];
      isGenerating := false;
      pendingPrompt := None;
    }

    /** `handleSuggestionClick`. */
    method ApplySuggestion(suggestion: string)
      requires Valid()
      modifies this
      ensures Valid() && State() == InputStep(old(State()), suggestion)
      ensures inputValue == suggestion
      ensures messages == old(messages) && isGenerating == old(isGenerating) && pendingPrompt == old(pendingPrompt)
    {
      inputValue := suggestion;
    }

    /** The text box's `onChange`. */
    method EditInput(text: string)
      requires Valid()
      modifies this
      ensures Valid() && State() == InputStep(old(State()), text)
      ensures inputValue == text
      ensures messages == old(messages) && isGenerating == old(isGenerating) && pendingPrompt == old(pendingPrompt)
    {
      inputValue := text;
    }
  }
}
