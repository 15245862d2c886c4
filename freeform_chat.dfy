/** The free-form variant of the widget (src/chatbot.js): every message the
    user sends is answered with one fixed reply, and the greeting is added
    the first time the panel is toggled.

    As in the guided variant, the hooks are given both as the value `State`,
    with one pure transition function per handler, and as the class
    `Chatbot`, whose methods are proved to move its fields exactly as those
    functions say. `handleSend` queues a plain setter (the render's log plus
    the user's message) and then a functional one (whatever is queued plus
    the reply), so its net effect is both messages appended in that order. */
module FreeFormChat {
  import opened ChatCommon

  /** The bot's answer to any message. */
  const Reply: string := "I am here to help with anything you need!"

  /** One value of all the component's hooks. */
  datatype State = State(
    messages: seq<Message>,
    input: string,
    showChatbot: bool,
    showPopup: bool,
    hasOpenedOnce: bool)

  /** The hooks' initial values. */
  function Initial(): (s: State)
    ensures Valid(s) && s.messages == [] && !s.hasOpenedOnce
  {
    State([], "", false, false, false)
  }

  /** What holds of every state reachable from `Initial()`: before the
      first toggle the panel is hidden and the log empty; after it the log
      starts with the greeting. */
  predicate Valid(s: State)
  {
    && (!s.hasOpenedOnce ==> !s.showChatbot && s.messages == [])
    && (s.hasOpenedOnce ==> s.messages != [] && s.messages[0] == BotSays(Greeting))
  }

  /** `handleSend`: a blank draft is ignored; otherwise the raw draft and
      the fixed reply are appended and the draft is cleared. */
  function Send(s: State): (r: State)
    requires Valid(s) && s.showChatbot
    ensures Valid(r)
    ensures IsBlank(s.input) ==> r == s
    ensures !IsBlank(s.input) ==>
              && r.messages == s.messages + [UserSays(s.input), BotSays(Reply)]
              && |r.messages| == |s.messages| + 2
              && r.input == ""
    ensures r.showChatbot == s.showChatbot && r.showPopup == s.showPopup
    ensures r.hasOpenedOnce == s.hasOpenedOnce
  {
    if IsBlank(s.input) then
      s
    else
      var queued := s.messages + [UserSays(s.input)];
      assert queued + [BotSays(Reply)] == s.messages + [UserSays(s.input), BotSays(Reply)];
      s.(messages := queued + [BotSays(Reply)], input := "")
  }

  /** `toggleChatbot`: shows or hides the panel, dismisses the teaser, and
      appends the greeting only if the panel has never been toggled. */
  function Toggle(s: State): (r: State)
    requires Valid(s)
    ensures Valid(r)
    ensures r.showChatbot == !s.showChatbot && !r.showPopup && r.hasOpenedOnce
    ensures r.messages == s.messages + (if s.hasOpenedOnce then [] else [BotSays(Greeting)])
    ensures r.messages != s.messages ==> r.showChatbot
    ensures r.input == s.input
  {
    var greeted := if s.hasOpenedOnce then s.messages else s.messages + [BotSays(Greeting)];
    s.(showChatbot := !s.showChatbot, messages := greeted, hasOpenedOnce := true, showPopup := false)
  }

  /** `handleKeyDown`: Enter sends, any other key does nothing. */
  function KeyDown(s: State, key: string): (r: State)
    requires Valid(s) && s.showChatbot
    ensures Valid(r)
    ensures key == "Enter" ==> r == Send(s)
    ensures key != "Enter" ==> r == s
  {
    if key == "Enter" then Send(s) else s
  }

  /** The discrete events the component reacts to. */
  datatype Event =
    | TypeText(text: string)       // onChange of the draft box
    | KeyPress(key: string)        // key pressed in the draft box
    | SendClick
    | ToggleClick
    | PopupShown                   // the teaser timer fires, one second after mount
    | PopupHidden                  // the nested timer fires, five seconds later

  /** The events that come from the draft box and the Send button, which
      are rendered only while `showChatbot` holds. */
  predicate PanelControl(e: Event)
  {
    e.TypeText? || e.KeyPress? || e.SendClick?
  }

  /** Whether `e` can reach the component in state `s`: a control inside the
      hidden panel does not exist, so it cannot be used. */
  predicate Enabled(s: State, e: Event)
  {
    !PanelControl(e) || s.showChatbot
  }

  /** The net effect of one event; an event on a control that is not
      rendered changes nothing. The log only ever grows at its end, and
      `hasOpenedOnce` becomes true on the first toggle and stays so. */
  function Apply(s: State, e: Event): (r: State)
    requires Valid(s)
    ensures Valid(r)
    ensures !Enabled(s, e) ==> r == s
    ensures s.messages <= r.messages
    ensures r.hasOpenedOnce == (s.hasOpenedOnce || e.ToggleClick?)
  {
    if !Enabled(s, e) then s else
    match e
    case TypeText(text) => s.(input := text)
    case KeyPress(key) => KeyDown(s, key)
    case SendClick => Send(s)
    case ToggleClick => Toggle(s)
    case PopupShown => s.(showPopup := true)
    case PopupHidden => s.(showPopup := false)
  }

  /** The state after a whole session of events: the log is append-only,
      and the panel counts as opened once the session holds a toggle. */
  function Run(s: State, events: seq<Event>): (r: State)
    requires Valid(s)
    ensures Valid(r)
    ensures s.messages <= r.messages
    ensures r.hasOpenedOnce == (s.hasOpenedOnce || ToggleClick in events)
    decreases |events|
  {
    if events == [] then s
    else
      assert ToggleClick in events <==> events[0] == ToggleClick || ToggleClick in events[1..];
      Run(Apply(s, events[0]), events[1..])
  }

  /** Occurrences of `m` in the log `log`. */
  function Count(m: Message, log: seq<Message>): nat
  {
    if log == [] then 0 else (if log[0] == m then 1 else 0) + Count(m, log[1..])
  }

  lemma {:induction false} CountAppend(m: Message, a: seq<Message>, b: seq<Message>)
    ensures Count(m, a + b) == Count(m, a) + Count(m, b)
  {
    if a == [] {
      assert a + b == b;
    } else {
      assert (a + b)[1..] == a[1..] + b;
      CountAppend(m, a[1..], b);
    }
  }

  /** One event adds a greeting to the log exactly when it is the first
      toggle; sends add the user's text and the reply, never a greeting
      from the bot. */
  lemma ApplyGreetings(s: State, e: Event)
    requires Valid(s)
    ensures Count(BotSays(Greeting), Apply(s, e).messages)
            == Count(BotSays(Greeting), s.messages) + (if e.ToggleClick? && !s.hasOpenedOnce then 1 else 0)
  {
    var g := BotSays(Greeting);
    var r := Apply(s, e);
    if r.messages != s.messages {
      var added := r.messages[|s.messages|..];
      assert r.messages == s.messages + added;
      CountAppend(g, s.messages, added);
      if e.ToggleClick? {
        assert added == [g];
      } else {
        assert added == [UserSays(r.messages[|s.messages|].text), BotSays(Reply)];
        assert Reply != Greeting by { assert |Reply| != |Greeting|; }
        assert added[1..] == [BotSays(Reply)] && added[1..][1..] == [];
        assert Count(g, added[1..]) == 0;
        assert Count(g, added) == 0;
      }
    }
  }

  /** Over any session, toggling adds exactly one greeting if the session
      opens the panel for the first time, and none otherwise. */
  lemma {:induction false} GreetingsInSession(s: State, events: seq<Event>)
    requires Valid(s)
    ensures Count(BotSays(Greeting), Run(s, events).messages)
            == Count(BotSays(Greeting), s.messages)
               + (if !s.hasOpenedOnce && Run(s, events).hasOpenedOnce then 1 else 0)
    decreases |events|
  {
    if events != [] {
      var next := Apply(s, events[0]);
      ApplyGreetings(s, events[0]);
      GreetingsInSession(next, events[1..]);
    }
  }

  /** A fresh widget's log holds one greeting once the panel has been
      toggled and none before: never more than one. */
  lemma OneGreetingPerSession(events: seq<Event>)
    ensures Count(BotSays(Greeting), Run(Initial(), events).messages)
            == if ToggleClick in events then 1 else 0
  {
    GreetingsInSession(Initial(), events);
  }

  /** Two toggles in a row restore the panel's visibility and add at most
      the one greeting. */
  lemma ToggleTwice(s: State)
    requires Valid(s)
    ensures Toggle(Toggle(s)).showChatbot == s.showChatbot
    ensures Toggle(Toggle(s)).messages == Toggle(s).messages
    ensures |Toggle(Toggle(s)).messages| <= |s.messages| + 1
  {
  }

  /** The component. Its fields are the hooks; its methods the handlers.
      The handlers wired to the draft box and the Send button can only be
      invoked while the panel is shown. */
  class Chatbot {
    var messages: seq<Message>
    var input: string
    var showChatbot: bool
    var showPopup: bool
    var hasOpenedOnce: bool

    /** The hooks as one value. */
    function Snapshot(): State
      reads this
    {
      State(messages, input, showChatbot, showPopup, hasOpenedOnce)
    }

    predicate Invariant()
      reads this
    {
      Valid(Snapshot())
    }

    /** Mounting: every hook at its initial value. */
    constructor ()
      ensures Snapshot() == Initial() && Invariant()
    {
      messages := [];
      input := "";
      showChatbot := false;
      showPopup := false;
      hasOpenedOnce := false;
    }

    /** The draft box's `onChange`. */
    method SetInput(text: string)
      requires Invariant() && showChatbot
      modifies this
      ensures Invariant() && Snapshot() == Apply(old(Snapshot()), TypeText(text))
    {
      input := text;
    }

    method HandleKeyDown(key: string)
      requires Invariant() && showChatbot
      modifies this
      ensures Invariant() && Snapshot() == KeyDown(old(Snapshot()), key)
    {
      if key == "Enter" {
        HandleSend();
      }
    }

    method HandleSend()
      requires Invariant() && showChatbot
      modifies this
      ensures Invariant() && Snapshot() == Send(old(Snapshot()))
    {
      var truthy := TrimmedIsTruthy(input);
      if truthy {
        messages := messages + [UserSays(input)];
        messages := messages + [BotSays(Reply)];
        input := "";
      }
    }

    method ToggleChatbot()
      requires Invariant()
      modifies this
      ensures Invariant() && Snapshot() == Toggle(old(Snapshot()))
    {
      showChatbot := !showChatbot;
      if !hasOpenedOnce {
        messages := messages + [BotSays(Greeting)];
        hasOpenedOnce := true;
      }
      showPopup := false;
    }

    /** The teaser timer set at mount fires. */
    method ShowPopupTimer()
      requires Invariant()
      modifies this
      ensures Invariant() && Snapshot() == Apply(old(Snapshot()), PopupShown)
    {
      showPopup := true;
    }

    /** The nested timer fires and hides the teaser again. */
    method HidePopupTimer()
      requires Invariant()
      modifies this
      ensures Invariant() && Snapshot() == Apply(old(Snapshot()), PopupHidden)
    {
      showPopup := false;
    }
  }
}
