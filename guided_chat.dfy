/** The guided variant of the widget (src/chattest.js): after the greeting it
    walks the user through a fixed two-question form (name, then email), lets
    them step back to the previous question, clear the log, and dictate the
    draft through an optional speech-recognition capability.

    The state of the component is given twice: as the value `State`, on which
    every handler is a pure transition function whose contract states what
    the handler promises, and as the class `Chatbot`, whose fields are the
    component's `useState` hooks and whose methods are the handlers, each
    proved to move its fields exactly as the matching transition function.

    A handler is one atomic transition. React queues its setter calls: a
    plain setter stores a value computed from the render's (pre-event)
    state, a functional setter `prev => ...` applies to whatever is queued
    before it. In every handler of this file the net effect equals running
    the setters one after the other on the fields, which is how the methods
    are written. */
module GuidedChat {
  import opened ChatCommon

  /** The questions, asked in order. */
  const Steps: seq<string> := ["What is your name?", "What is your email address?"]

  /** The answers collected so far, one per question. */
  datatype Responses = Responses(name: string, email: string)

  /** One value of all the component's hooks. `currentStep` is -1 before the
      first question has been asked, otherwise the index of the question
      last asked. */
  datatype State = State(
    messages: seq<Message>,
    input: string,
    showChatbot: bool,
    currentStep: int,
    userResponses: Responses,
    hasOpenedOnce: bool,
    showPopup: bool,
    isListening: bool)

  /** The hooks' initial values. */
  function Initial(): (s: State)
    ensures Valid(s) && s.currentStep == -1 && s.messages == [] && !s.hasOpenedOnce
  {
    State([], "", false, -1, Responses("", ""), false, false, false)
  }

  /** What holds of every state the handlers can reach from `Initial()`:
      the step indexes a question or is -1; before the first toggle the
      panel is hidden and the log empty; after it the log starts with the
      greeting. */
  predicate Valid(s: State)
  {
    && -1 <= s.currentStep <= |Steps| - 1
    && (!s.hasOpenedOnce ==> !s.showChatbot && s.messages == [])
    && (s.hasOpenedOnce ==> s.messages != [] && s.messages[0] == BotSays(Greeting))
  }

  /** The fields no message-handling transition touches. */
  predicate SameFlags(s: State, r: State)
  {
    && r.showChatbot == s.showChatbot
    && r.hasOpenedOnce == s.hasOpenedOnce
    && r.showPopup == s.showPopup
    && r.isListening == s.isListening
  }

  /** `goToNextStep`: asks the next question, if there is one. */
  function NextStep(s: State): (r: State)
    requires Valid(s) && s.showChatbot
    ensures Valid(r) && SameFlags(s, r)
    ensures r.input == s.input && r.userResponses == s.userResponses
    ensures s.currentStep < |Steps| - 1 ==>
              && r.currentStep == s.currentStep + 1
              && r.messages == s.messages + [BotSays(Steps[r.currentStep])]
    ensures s.currentStep == |Steps| - 1 ==> r == s
  {
    if s.currentStep < |Steps| - 1 then
      s.(currentStep := s.currentStep + 1,
         messages := s.messages + [BotSays(Steps[s.currentStep + 1])])
    else
      s
  }

  /** The answer `text` given while question `step` is on screen: it
      overwrites the name at step 0, the email at step 1, and nothing before
      the first question. */
  function Record(responses: Responses, step: int, text: string): (r: Responses)
    ensures r.name != responses.name ==> step == 0 && r.name == text
    ensures r.email != responses.email ==> step == 1 && r.email == text
    ensures step == 0 ==> r == Responses(text, responses.email)
    ensures step == 1 ==> r == Responses(responses.name, text)
  {
    if step == 0 then responses.(name := text)
    else if step == 1 then responses.(email := text)
    else responses
  }

  /** The first half of `handleSend` on a draft worth sending: the raw
      draft is logged as the user's message, recorded as the answer to the
      question on screen, and cleared. */
  function Answer(s: State): (r: State)
    requires Valid(s) && s.showChatbot
    ensures Valid(r) && r.showChatbot && SameFlags(s, r)
    ensures r.messages == s.messages + [UserSays(s.input)]
    ensures r.currentStep == s.currentStep && r.input == ""
    ensures r.userResponses == Record(s.userResponses, s.currentStep, s.input)
  {
    var r := s.(messages := s.messages + [UserSays(s.input)],
                userResponses := Record(s.userResponses, s.currentStep, s.input),
                input := "");
    assert r.messages[0] == s.messages[0];
    r
  }

  /** `handleSend`: a blank draft is ignored; otherwise the draft is
      answered and the next question (if any) is asked. */
  function Send(s: State): (r: State)
    requires Valid(s) && s.showChatbot
    ensures Valid(r) && SameFlags(s, r)
    ensures IsBlank(s.input) ==> r == s
    ensures !IsBlank(s.input) ==>
              && r.input == ""
              && r.userResponses == Record(s.userResponses, s.currentStep, s.input)
              && (s.currentStep < |Steps| - 1 ==>
                    && r.currentStep == s.currentStep + 1
                    && r.messages == s.messages + [UserSays(s.input), BotSays(Steps[s.currentStep + 1])])
              && (s.currentStep == |Steps| - 1 ==>
                    r.currentStep == s.currentStep && r.messages == s.messages + [UserSays(s.input)])
  {
    if IsBlank(s.input) then
      s
    else
      var answered := Answer(s);
      assert s.currentStep < |Steps| - 1 ==>
        answered.messages + [BotSays(Steps[s.currentStep + 1])]
          == s.messages + [UserSays(s.input), BotSays(Steps[s.currentStep + 1])];
      NextStep(answered)
  }

  /** `goToPreviousStep`: re-asks the previous question; the answers already
      recorded stay as they are. */
  function PreviousStep(s: State): (r: State)
    requires Valid(s) && s.showChatbot
    ensures Valid(r) && SameFlags(s, r)
    ensures r.input == s.input && r.userResponses == s.userResponses
    ensures s.currentStep <= 0 ==> r == s
    ensures s.currentStep > 0 ==>
              && r.currentStep == s.currentStep - 1
              && r.messages == s.messages + [BotSays(Steps[r.currentStep])]
  {
    if s.currentStep > 0 then
      s.(currentStep := s.currentStep - 1,
         messages := s.messages + [BotSays(Steps[s.currentStep - 1])])
    else
      s
  }

  /** `toggleChatbot`: shows or hides the panel and dismisses the teaser;
      the log is reseeded with the greeting when the panel has never been
      toggled or the log is empty. */
  function Toggle(s: State): (r: State)
    requires Valid(s)
    ensures Valid(r)
    ensures r.showChatbot == !s.showChatbot && !r.showPopup && r.hasOpenedOnce
    ensures r.messages == if !s.hasOpenedOnce || s.messages == [] then [BotSays(Greeting)] else s.messages
    ensures r.input == s.input && r.currentStep == s.currentStep
    ensures r.userResponses == s.userResponses && r.isListening == s.isListening
  {
    var seeded := if !s.hasOpenedOnce || s.messages == [] then [BotSays(Greeting)] else s.messages;
    s.(showChatbot := !s.showChatbot, messages := seeded, hasOpenedOnce := true, showPopup := false)
  }

  /** `clearConversation`: the log goes back to the lone greeting and the
      form to its first question; answers and draft are kept. */
  function Clear(s: State): (r: State)
    requires Valid(s) && s.showChatbot
    ensures Valid(r) && SameFlags(s, r)
    ensures r.messages == [BotSays(Greeting)] && r.currentStep == 0
    ensures r.input == s.input && r.userResponses == s.userResponses
  {
    s.(messages := [BotSays(Greeting)], currentStep := 0)
  }

  /** What the microphone button reports to the user. */
  datatype SpeechOutcome = CapabilityUnavailable | Started | Stopped

  /** `handleSpeech` with the capability `available` or not: without it
      nothing changes (the user is alerted); with it, listening flips. */
  function Speech(s: State, available: bool): (r: State)
    ensures !available ==> r == s
    ensures available ==> r.isListening == !s.isListening && r.(isListening := s.isListening) == s
  {
    if available then s.(isListening := !s.isListening) else s
  }

  /** `handleKeyDown`: Enter sends, any other key does nothing. */
  function KeyDown(s: State, key: string): (r: State)
    requires Valid(s) && s.showChatbot
    ensures key == "Enter" ==> r == Send(s)
    ensures key != "Enter" ==> r == s
  {
    if key == "Enter" then Send(s) else s
  }

  /** The discrete events the component reacts to. */
  datatype Event =
    | TypeText(text: string)       // onChange of the draft box
    | KeyPress(key: string)        // key pressed in the draft box
    | SendClick
    | PreviousClick
    | ToggleClick
    | ClearClick
    | MicClick(available: bool)
    | SpeechResult(transcript: string)
    | SpeechError
    | SpeechEnd
    | PopupTimer                   // the teaser timer set at mount fires

  /** The events that come from the draft box and the buttons inside the
      panel, which is rendered only while `showChatbot` holds. */
  predicate PanelControl(e: Event)
  {
    e.TypeText? || e.KeyPress? || e.SendClick? || e.PreviousClick? || e.ClearClick? || e.MicClick?
  }

  /** Whether `e` can reach the component in state `s`: a control inside the
      hidden panel does not exist, so it cannot be used. */
  predicate Enabled(s: State, e: Event)
  {
    !PanelControl(e) || s.showChatbot
  }

  /** The net effect of one event; an event on a control that is not
      rendered changes nothing. Every event keeps the state valid, moves
      the step by at most one question, and never unsets `hasOpenedOnce`;
      only sends change the answers, and only a clear does anything to the
      log but append to it. */
  function Apply(s: State, e: Event): (r: State)
    requires Valid(s)
    ensures Valid(r)
    ensures !Enabled(s, e) ==> r == s
    ensures s.currentStep - 1 <= r.currentStep <= s.currentStep + 1
    ensures r.currentStep != s.currentStep ==>
              e.SendClick? || e.KeyPress? || e.PreviousClick? || e.ClearClick?
    ensures e.ClearClick? && s.showChatbot ==> r.currentStep == 0
    ensures r.hasOpenedOnce == (s.hasOpenedOnce || e.ToggleClick?)
    ensures r.userResponses != s.userResponses ==> e.SendClick? || e.KeyPress?
    ensures s.messages <= r.messages || e.ClearClick?
  {
    if !Enabled(s, e) then s else
    match e
    case TypeText(text) => s.(input := text)
    case KeyPress(key) => KeyDown(s, key)
    case SendClick => Send(s)
    case PreviousClick => PreviousStep(s)
    case ToggleClick => Toggle(s)
    case ClearClick => Clear(s)
    case MicClick(available) => Speech(s, available)
    case SpeechResult(transcript) => s.(input := transcript, isListening := false)
    case SpeechError => s.(isListening := false)
    case SpeechEnd => s.(isListening := false)
    case PopupTimer => s.(showPopup := true)
  }

  /** The state after a whole session of events: it stays valid, the
      panel once opened stays marked as opened, and a session without a
      clear only appends to the log. */
  function Run(s: State, events: seq<Event>): (r: State)
    requires Valid(s)
    ensures Valid(r)
    ensures s.hasOpenedOnce ==> r.hasOpenedOnce
    ensures ClearClick !in events ==> s.messages <= r.messages
    decreases |events|
  {
    if events == [] then s
    else
      assert ClearClick !in events ==> ClearClick !in events[1..];
      Run(Apply(s, events[0]), events[1..])
  }

  /** Whatever happens, the step stays between -1 and the last question. */
  lemma StepAlwaysInRange(events: seq<Event>)
    ensures -1 <= Run(Initial(), events).currentStep <= |Steps| - 1
  {
  }

  /** Once the panel has been opened, toggling never touches the log: the
      `messages.length === 0` half of the reseeding test cannot fire. */
  lemma ToggleAfterOpenKeepsLog(s: State)
    requires Valid(s) && s.hasOpenedOnce
    ensures Toggle(s).messages == s.messages
  {
  }

  /** Opening a fresh widget shows the lone greeting and asks no question
      yet. */
  lemma FirstOpenShowsGreeting()
    ensures Apply(Initial(), ToggleClick).messages == [BotSays(Greeting)]
    ensures Apply(Initial(), ToggleClick).currentStep == -1
  {
  }

  /** The first message sent, at step -1, is logged and brings up the
      first question, but is recorded as no answer. */
  lemma FirstSendRecordsNothing(s: State, text: string)
    requires Valid(s) && s.showChatbot && s.currentStep == -1 && !IsBlank(text)
    ensures (
      var first := Apply(Apply(s, TypeText(text)), KeyPress("Enter"));
      && first.messages == s.messages + [UserSays(text), BotSays(Steps[0])]
      && first.currentStep == 0 && first.userResponses == s.userResponses
      && first.input == "")
  {
    var typed := Apply(s, TypeText(text));
    assert typed == s.(input := text);
    assert Apply(typed, KeyPress("Enter")) == KeyDown(typed, "Enter");
  }

  /** Clear moves the form to step 0 without asking the name question, so a
      message sent right after it is recorded as the name, even by a user
      who never saw that question; the email question follows. */
  lemma ClearThenSendRecordsName(s: State, text: string)
    requires Valid(s) && s.showChatbot && !IsBlank(text)
    ensures (
      var sent := Apply(Apply(Apply(s, ClearClick), TypeText(text)), SendClick);
      && sent.userResponses == Responses(text, s.userResponses.email)
      && sent.messages == [BotSays(Greeting), UserSays(text), BotSays(Steps[1])]
      && sent.currentStep == 1 && sent.input == "")
  {
    var cleared := Apply(s, ClearClick);
    assert cleared == Clear(s);
    var typed := Apply(cleared, TypeText(text));
    assert typed == cleared.(input := text);
    assert Apply(typed, SendClick) == Send(typed);
  }

  /** From the first question, two answers are recorded as the name and
      then the email; the second question is asked in between, and after
      the last answer no further question is asked. */
  lemma AnswersRecordedInOrder(s: State, name: string, email: string)
    requires Valid(s) && s.showChatbot && s.currentStep == 0
    requires !IsBlank(name) && !IsBlank(email)
    ensures (
      var second := Apply(Apply(s, TypeText(name)), SendClick);
      var third := Apply(Apply(second, TypeText(email)), SendClick);
      && second.currentStep == 1 && second.userResponses == Responses(name, s.userResponses.email)
      && third.currentStep == 1 && third.userResponses == Responses(name, email)
      && third.messages == s.messages + [UserSays(name), BotSays(Steps[1]), UserSays(email)]
      && third.input == "")
  {
    var typed := Apply(s, TypeText(name));
    assert typed == s.(input := name);
    var second := Apply(typed, SendClick);
    assert second == Send(typed);
    var typed2 := Apply(second, TypeText(email));
    assert typed2 == second.(input := email);
    assert Apply(typed2, SendClick) == Send(typed2);
  }

  /** The component. Its fields are the hooks; its methods the handlers.
      The handlers wired to the draft box and to the buttons inside the
      panel can only be invoked while the panel is shown. */
  class Chatbot {
    var messages: seq<Message>
    var input: string
    var showChatbot: bool
    var currentStep: int
    var userResponses: Responses
    var hasOpenedOnce: bool
    var showPopup: bool
    var isListening: bool

    /** The hooks as one value. */
    function Snapshot(): State
      reads this
    {
      State(messages, input, showChatbot, currentStep, userResponses, hasOpenedOnce, showPopup, isListening)
    }

    predicate Invariant()
      reads this
    {
      Valid(Snapshot())
    }

    /** Mounting: every hook at its initial value. */
    constructor ()
      ensures Snapshot() == Initial() && Invariant()
    {
      messages := [];
      input := "";
      showChatbot := false;
      currentStep := -1;
      userResponses := Responses("", "");
      hasOpenedOnce := false;
      showPopup := false;
      isListening := false;
    }

    /** The draft box's `onChange`. */
    method SetInput(text: string)
      requires Invariant() && showChatbot
      modifies this
      ensures Invariant() && Snapshot() == Apply(old(Snapshot()), TypeText(text))
    {
      input := text;
    }

    method HandleKeyDown(key: string)
      requires Invariant() && showChatbot
      modifies this
      ensures Invariant() && Snapshot() == KeyDown(old(Snapshot()), key)
    {
      if key == "Enter" {
        HandleSend();
      }
    }

    method HandleSend()
      requires Invariant() && showChatbot
      modifies this
      ensures Invariant() && Snapshot() == Send(old(Snapshot()))
    {
      var truthy := TrimmedIsTruthy(input);
      if truthy {
        messages := messages + [UserSays(input)];
        if currentStep == 0 {
          userResponses := userResponses.(name := input);
        } else if currentStep == 1 {
          userResponses := userResponses.(email := input);
        }
        input := "";
        assert Snapshot() == Answer(old(Snapshot()));
        GoToNextStep();
      }
    }

    method GoToNextStep()
      requires Invariant() && showChatbot
      modifies this
      ensures Invariant() && Snapshot() == NextStep(old(Snapshot()))
    {
      if currentStep < |Steps| - 1 {
        var step := currentStep;
        currentStep := step + 1;
        messages := messages + [BotSays(Steps[step + 1])];
      }
    }

    method GoToPreviousStep()
      requires Invariant() && showChatbot
      modifies this
      ensures Invariant() && Snapshot() == PreviousStep(old(Snapshot()))
    {
      if currentStep > 0 {
        var step := currentStep;
        currentStep := step - 1;
        messages := messages + [BotSays(Steps[step - 1])];
      }
    }

    method ToggleChatbot()
      requires Invariant()
      modifies this
      ensures Invariant() && Snapshot() == Toggle(old(Snapshot()))
    {
      showChatbot := !showChatbot;
      if !hasOpenedOnce || |messages| == 0 {
        messages := [BotSays(Greeting)];
        hasOpenedOnce := true;
      }
      showPopup := false;
    }

    method ClearConversation()
      requires Invariant() && showChatbot
      modifies this
      ensures Invariant() && Snapshot() == Clear(old(Snapshot()))
    {
      messages := [BotSays(Greeting)];
      currentStep := 0;
    }

    /** The microphone button; `available` says whether the browser offers
        speech recognition. */
    method HandleSpeech(available: bool) returns (outcome: SpeechOutcome)
      requires Invariant() && showChatbot
      modifies this
      ensures Invariant() && Snapshot() == Speech(old(Snapshot()), available)
      ensures outcome == if !available then CapabilityUnavailable
                         else if old(isListening) then Stopped else Started
    {
      if !available {
        return CapabilityUnavailable;
      }
      if isListening {
        isListening := false;
        outcome := Stopped;
      } else {
        isListening := true;
        outcome := Started;
      }
    }

    /** The recognition session delivers a transcript. */
    method OnResult(transcript: string)
      requires Invariant()
      modifies this
      ensures Invariant() && Snapshot() == Apply(old(Snapshot()), SpeechResult(transcript))
    {
      input := transcript;
      isListening := false;
    }

    method OnError()
      requires Invariant()
      modifies this
      ensures Invariant() && Snapshot() == Apply(old(Snapshot()), SpeechError)
    {
      isListening := false;
    }

    method OnEnd()
      requires Invariant()
      modifies this
      ensures Invariant() && Snapshot() == Apply(old(Snapshot()), SpeechEnd)
    {
      isListening := false;
    }

    /** The teaser timer set at mount fires. */
    method ShowPopupTimer()
      requires Invariant()
      modifies this
      ensures Invariant() && Snapshot() == Apply(old(Snapshot()), PopupTimer)
    {
      showPopup := true;
    }
  }
}
