# Chat widget conversation controller

A model, in Dafny, of the conversation controller of a scripted
customer-support chat widget. The widget is a floating button that opens a
chat panel. The panel shows a canned greeting and keeps a log of user and bot
messages. It comes in two variants, each a React component whose handlers
update `useState` hooks:

- the **guided** variant (`src/chattest.js`) walks the user through two fixed
  questions (name, then email). It records each answer and can step back to
  the previous question or clear the log. The draft can also be dictated
  through an optional speech-recognition capability.
- the **free-form** variant (`src/chatbot.js`) answers every message with one
  fixed reply. It adds the greeting the first time the panel is toggled.

Files:

- `chat_common.dfy` (module `ChatCommon`): messages, the greeting, and
  JavaScript's `String.prototype.trim` over the ECMAScript whitespace set.
- `guided_chat.dfy` (module `GuidedChat`): the guided variant.
- `freeform_chat.dfy` (module `FreeFormChat`): the free-form variant.

Each variant is given twice.

- As a value `State`, with one pure transition function per handler. Their
  contracts carry the properties. An `Event` type, `Apply` (one event) and
  `Run` (a session of events) give the invariants that hold across a whole
  session.
- As a class `Chatbot`, whose fields are the component's hooks and whose
  methods are its handlers. Each method is proved to move the fields exactly
  as its transition function says (`Snapshot() == F(old(Snapshot()))`).

Each handler is one atomic transition. React queues setter calls. A plain
setter stores a value computed from the render's state. A functional setter
(`prev => ...`) applies to whatever was queued before it. So `handleSend`
appends the user's message and then the bot message: in the free-form
variant always, in the guided variant only while a question remains. In the
guided variant, `goToNextStep` reads the step the event started with. In
every handler, running the setters one after another on the fields gives the
same net state, and the methods are written that way.

The draft box, the Send button and (in the guided variant) the microphone,
Clear and Previous buttons are rendered only while the panel is shown
(src/chattest.js:135-189, src/chatbot.js:80-111). So the handlers behind
them require `showChatbot`, and in `Apply` an event on one of them while
the panel is hidden changes nothing (`Enabled`).

Points where the code behaves in a way one might not expect:

- A message sent in the guided variant at step -1 (the first one, unless
  Clear was pressed first) records no answer
  (`GuidedChat.FirstSendRecordsNothing`). It only brings up the first
  question. The name is the answer to that question
  (`GuidedChat.AnswersRecordedInOrder`). A design that records the very
  first message as the name is not what the code does.
- Clear sets the step to 0 but does not ask the name question again. The
  next message sent is still recorded as the name, even when the user never
  saw that question, and the email question follows
  (`GuidedChat.ClearThenSendRecordsName`).
- The step starts at -1, not 0. The model proves it stays in [-1, 1].
- The greeting is added on any toggle while `hasOpenedOnce` is false (or, in
  the guided variant, while the log is empty), not only on an open. The
  invariant `Valid` shows that this comes to the same thing. Before the
  first toggle the panel is hidden and the log is empty. Afterwards the log
  starts with the greeting, so it is never empty
  (`GuidedChat.ToggleAfterOpenKeepsLog`). The guided log therefore only
  shrinks on a clear (`GuidedChat.Run`), and the free-form log never
  shrinks.

Inputs from outside become parameters:

- whether speech recognition is available (`available`);
- the transcript a recognition session delivers;
- the key pressed;
- the text typed into the draft box.

## Model

| member | source | states |
|---|---|---|
| `ChatCommon.TrimStart` | src/chattest.js:41 | the result is the suffix of the draft that starts at its first non-whitespace character; everything dropped is whitespace |
| `ChatCommon.TrimEnd` | src/chattest.js:41 | the result is the prefix of the draft that ends at its last non-whitespace character; everything dropped is whitespace |
| `ChatCommon.Trim` | src/chattest.js:41 | `input.trim()` is empty exactly when the draft holds no non-whitespace character, and is never longer than the draft; the same call is made at src/chatbot.js:39 |
| `ChatCommon.TrimmedIsTruthy` | src/chattest.js:41 | the guard `if (input.trim())` passes exactly when the draft is not blank; the same guard is at src/chatbot.js:39 |
| `GuidedChat.Initial` | src/chattest.js:5-12 | the mount state is valid: step -1, empty log, never opened |
| `GuidedChat.Answer` | src/chattest.js:42-48 | the raw draft is appended as the user's message, recorded per `Record` and cleared; the step and flags are kept and the state stays valid |
| `GuidedChat.NextStep` | src/chattest.js:53-61 | below the last question, the step advances by one and the prompt for the new step is appended; at the last question nothing changes; the draft, answers and flags are untouched |
| `GuidedChat.Record` | src/chattest.js:43-47 | the name changes only at step 0 and the email only at step 1, each to the sent text; the other answer is kept; at step -1 nothing is recorded |
| `GuidedChat.Send` | src/chattest.js:40-51 | a blank draft changes nothing. Otherwise the log gains the raw user text, and then the next prompt exactly when a question remains. The answer is recorded per `Record` and the draft is cleared. The flags are untouched and the state stays valid |
| `GuidedChat.KeyDown` | src/chattest.js:34-38 | Enter acts as `Send`; any other key changes nothing |
| `GuidedChat.PreviousStep` | src/chattest.js:63-71 | at step 0 or -1 nothing changes; otherwise the step goes down by one and that question's prompt is appended again; the answers are never touched |
| `GuidedChat.Toggle` | src/chattest.js:73-80 | visibility flips and the teaser is dismissed. The log becomes the lone greeting exactly when the panel was never toggled or the log is empty. Afterwards `hasOpenedOnce` holds; the step, draft and answers are kept |
| `GuidedChat.Clear` | src/chattest.js:82-85 | the log is the lone greeting and the step is 0, from any state; answers, draft and flags are kept |
| `GuidedChat.Speech` | src/chattest.js:87-99 | without the capability nothing changes; with it exactly `isListening` flips |
| `GuidedChat.Apply` | src/chattest.js:34-121 | a control of the hidden panel changes nothing. Every event keeps the state valid and moves the step by at most one. Only send, Enter, previous and clear move it, and a clear sets it to 0. `hasOpenedOnce` becomes true on the first toggle and is never unset. Only sends change the answers. The log only grows at its end, except on a clear |
| `GuidedChat.Run` | src/chattest.js:34-121 | over any session of events the state stays valid (step in [-1, 1]) and `hasOpenedOnce` is never reset; a session without a clear only appends to the log |
| `GuidedChat.StepAlwaysInRange` | src/chattest.js:53-85 | from mount, whatever the events, the step stays between -1 and the last question |
| `GuidedChat.ToggleAfterOpenKeepsLog` | src/chattest.js:75-78 | once the panel has been opened, toggling leaves the log alone: the empty-log half of the test cannot fire |
| `GuidedChat.FirstOpenShowsGreeting` | src/chattest.js:73-80 | opening a fresh widget shows only the greeting and asks no question yet |
| `GuidedChat.FirstSendRecordsNothing` | src/chattest.js:40-59 | a message sent at step -1 is logged, the first question is asked and the step becomes 0, but no answer is recorded |
| `GuidedChat.ClearThenSendRecordsName` | src/chattest.js:82-85 | from any state with the panel open, clear then a non-blank message records that message as the name; the log becomes the greeting, the message and the email question, and the step is 1 |
| `GuidedChat.AnswersRecordedInOrder` | src/chattest.js:40-61 | from the first question, two answers become the name and the email. The second question is asked in between and no prompt follows the last answer |
| `GuidedChat.Chatbot.constructor` | src/chattest.js:5-12 | the hooks start at the mount state |
| `GuidedChat.Chatbot.SetInput` | src/chattest.js:160 | typing replaces the draft and nothing else |
| `GuidedChat.Chatbot.HandleKeyDown` | src/chattest.js:34-38 | the hooks move exactly as `KeyDown` says |
| `GuidedChat.Chatbot.HandleSend` | src/chattest.js:40-51 | the hooks move exactly as `Send` says |
| `GuidedChat.Chatbot.GoToNextStep` | src/chattest.js:53-61 | the hooks move exactly as `NextStep` says |
| `GuidedChat.Chatbot.GoToPreviousStep` | src/chattest.js:63-71 | the hooks move exactly as `PreviousStep` says |
| `GuidedChat.Chatbot.ToggleChatbot` | src/chattest.js:73-80 | the hooks move exactly as `Toggle` says |
| `GuidedChat.Chatbot.ClearConversation` | src/chattest.js:82-85 | the hooks move exactly as `Clear` says |
| `GuidedChat.Chatbot.HandleSpeech` | src/chattest.js:87-99 | the hooks move as `Speech` says; the outcome is `CapabilityUnavailable` without the capability, otherwise `Stopped` or `Started` depending on whether it was listening |
| `GuidedChat.Chatbot.OnResult` | src/chattest.js:105-110 | the draft becomes the transcript and listening stops; nothing else changes |
| `GuidedChat.Chatbot.OnError` | src/chattest.js:112-115 | listening stops; nothing else changes |
| `GuidedChat.Chatbot.OnEnd` | src/chattest.js:117-120 | listening stops; nothing else changes |
| `GuidedChat.Chatbot.ShowPopupTimer` | src/chattest.js:27-32 | the teaser timer firing shows the teaser; nothing else changes |
| `FreeFormChat.Initial` | src/chatbot.js:5-9 | the mount state is valid: empty log, never opened |
| `FreeFormChat.Send` | src/chatbot.js:38-47 | with the panel open, the state stays valid. A blank draft changes nothing. Otherwise the log becomes the old log plus the raw user text plus the fixed reply, so it grows by exactly two. The draft is cleared and the flags are untouched |
| `FreeFormChat.Toggle` | src/chatbot.js:50-63 | visibility flips and the teaser is dismissed. The greeting is appended exactly when the panel was never toggled, and only ever on an open. Afterwards `hasOpenedOnce` holds |
| `FreeFormChat.KeyDown` | src/chatbot.js:32-36 | with the panel open, Enter acts as `Send` and any other key changes nothing; the state stays valid |
| `FreeFormChat.Apply` | src/chatbot.js:14-63 | a control of the hidden panel changes nothing. Every event keeps the old log as a prefix of the new one and keeps the state valid: an empty log and a hidden panel until the first toggle, and a log that starts with the greeting after it. `hasOpenedOnce` becomes true on the first toggle and stays so |
| `FreeFormChat.Run` | src/chatbot.js:14-63 | over any session the log is append-only, and `hasOpenedOnce` holds afterwards exactly when it held before or the session contains a toggle |
| `FreeFormChat.CountAppend` | src/chatbot.js:40-58 | counting a message in a log made of two parts adds the counts of the parts |
| `FreeFormChat.ApplyGreetings` | src/chatbot.js:54-60 | one event adds a greeting to the log exactly when it is the first toggle; a send never adds one |
| `FreeFormChat.GreetingsInSession` | src/chatbot.js:54-60 | over any session the greetings in the log grow by exactly one if the session opens the panel for the first time, and by none otherwise |
| `FreeFormChat.OneGreetingPerSession` | src/chatbot.js:50-63 | from mount, the log holds exactly one greeting once the session has a toggle and none before, so never more than one |
| `FreeFormChat.ToggleTwice` | src/chatbot.js:50-63 | two toggles in a row restore the panel's visibility; the second adds nothing to the log, so the pair adds at most one message |
| `FreeFormChat.Chatbot.constructor` | src/chatbot.js:5-9 | the hooks start at the mount state |
| `FreeFormChat.Chatbot.SetInput` | src/chatbot.js:102 | typing replaces the draft and nothing else |
| `FreeFormChat.Chatbot.HandleKeyDown` | src/chatbot.js:32-36 | the hooks move exactly as `KeyDown` says |
| `FreeFormChat.Chatbot.HandleSend` | src/chatbot.js:38-47 | the hooks move exactly as `Send` says |
| `FreeFormChat.Chatbot.ToggleChatbot` | src/chatbot.js:50-63 | the hooks move exactly as `Toggle` says |
| `FreeFormChat.Chatbot.ShowPopupTimer` | src/chatbot.js:15-16 | the first timer firing shows the teaser; nothing else changes |
| `FreeFormChat.Chatbot.HidePopupTimer` | src/chatbot.js:17-19 | the nested timer firing hides the teaser; nothing else changes |

## Left out

- Rendering, the `styles` objects and the global stylesheet injection are presentation only.
- The scroll-to-bottom effects are DOM measurement.
- Timer scheduling and cancellation are not modelled; a timer firing is an event method. The cleanup returned from inside the nested timer callback (src/chatbot.js:20) has no effect and is not modelled.
- The speech-recognition API itself is not modelled: its construction, `start`/`stop` and event objects. It is reduced to an availability flag and a transcript string. Its callbacks are events that may arrive in any state.
- The recognition object is constructed again on every render (src/chattest.js:19). So the `stop()` at src/chattest.js:94 addresses a different object than the session that was started. The model keeps only the `isListening` flag, so it cannot show whether that session really stops.
- `alert` and `console` logging are I/O. The alert for missing speech support is the `CapabilityUnavailable` outcome of `HandleSpeech`.
- src/App.js only mounts the component and is not part of this model.
- Whitespace is the ECMAScript WhiteSpace and LineTerminator set, taken character by character. Characters outside the Basic Multilingual Plane are never whitespace, so nothing is lost by that.
