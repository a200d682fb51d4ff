/** The client's session reducer (main.go:35-56, main.go:62-178): given the
    current state and one event, the next state and the commands the
    runtime should run next. Go's `model` is a value type, so the reducer
    is a function returning a new state. */
module Session {
  import opened Wrappers
  import opened GoStrings
  import ChatLog

  /** The word box's guide: the source only ever stores one of three texts
      in it (main.go:54, 130, 148, 166). */
  datatype Guide = WaitingGuide | GuessGuide | AnswerGuide {
    function Text(): string {
      match this
      case WaitingGuide => "WAITING ROUND START!"
      case GuessGuide => "PLEASE GUESS!"
      case AnswerGuide => "TIME'S UP! THE ANSWER:"
    }
  }

  /** Keys of the round-info objects sent by the server. */
  const WordToGuessKey := "word_to_guess"
  const RoundFinishTimeKey := "round_finish_time"
  const WordAnswerKey := "word_answer"
  const ToNextRoundTimeKey := "to_next_round_time"

  /** The session state (Go's `model`). Times are integer nanoseconds. */
  datatype State = State(
    connected: bool,          // the websocket handle is set
    err: Option<string>,      // the single error slot, shown until cleared
    deadline: Option<int>,    // instant the countdown timer runs to; None: no timer yet
    input: string,            // the text in the input line
    chat: seq<string>,        // the chat log, oldest first
    guide: Guide,             // the word box's guide text
    word: string)             // the word box's content

  /** The state at program start (main.go:46-56). */
  function Initial(): (s: State)
    ensures Inv(s) && Phase(s) == AwaitingStart
    ensures !s.connected && s.err == None && s.chat == [] && s.deadline == None
    ensures s.input == "" && s.guide == WaitingGuide && s.word == ""
  {
    State(false, None, None, "", [], WaitingGuide, "")
  }

  /** Outcome of parsing an RFC 3339 timestamp into an instant. */
  datatype TimeParse = Parsed(instant: int) | ParseFailed(message: string)

  /** The messages the reducer receives. */
  datatype Event =
    | KeyPress(key: string)                             // a key, named as Bubble Tea names it
    | InputEdited(text: string)                         // the input widget's new text after an edit
    | TimerTick                                         // the countdown timer ticked
    | ConnectionReady                                   // the websocket dial succeeded
    | Failed(message: string)                           // a command failed
    | SuccessSent                                       // a user message was written
    | WsPong                                            // inbound: PongMessage
    | WsFailed(message: string)                         // inbound: read failure or unknown tag
    | WsChat(text: string)                              // inbound: ChatMessage
    | WsOngoingRoundInfo(content: map<string, string>)  // inbound: OngoingRoundInfo
    | WsFinishedRoundInfo(content: map<string, string>) // inbound: FinishedRoundInfo
    | WsFinishedGame                                    // inbound: FinishedGame

  /** The events produced by the one outstanding websocket read. */
  predicate IsInbound(e: Event) {
    e.WsPong? || e.WsFailed? || e.WsChat? || e.WsOngoingRoundInfo?
    || e.WsFinishedRoundInfo? || e.WsFinishedGame?
  }

  /** The round-info objects carry the fields the reducer reads; the source
      panics on any other shape. */
  predicate WellShaped(e: Event) {
    && (e.WsOngoingRoundInfo? ==>
          WordToGuessKey in e.content && RoundFinishTimeKey in e.content)
    && (e.WsFinishedRoundInfo? ==>
          WordAnswerKey in e.content && ToNextRoundTimeKey in e.content)
  }

  /** The effects the reducer asks the runtime to perform. */
  datatype Cmd =
    | Quit                      // stop the program
    | Listen                    // read the next frame from the websocket
    | StartPinger               // start the keepalive loop
    | Send(text: string)        // write a user message to the websocket
    | StartTimer(deadline: int) // start a countdown timer running to `deadline`
    | TimerStep                 // the countdown timer's own next tick

  datatype Step = Step(next: State, cmds: seq<Cmd>)

  /** The deadline a round event sets: the parsed instant, or `now` when the
      timestamp does not parse. */
  function DeadlineOf(p: TimeParse, now: int): (d: int)
    ensures p.Parsed? ==> d == p.instant
    ensures p.ParseFailed? ==> d == now
  {
    if p.Parsed? then p.instant else now
  }

  /** Shared effect of the two round-info events (main.go:129-163): overwrite
      the word box, restart the countdown, and record a parse failure. */
  function EnterRound(s: State, guide: Guide, word: string, p: TimeParse, now: int): (r: Step)
    ensures r.next.guide == guide && r.next.word == word
    ensures r.next.deadline == Some(DeadlineOf(p, now))
    ensures r.next.err == if p.ParseFailed? then Some(p.message) else s.err
    ensures r.next.connected == s.connected && r.next.input == s.input && r.next.chat == s.chat
    ensures r.cmds == [Listen, StartTimer(DeadlineOf(p, now))]
  {
    var deadline := DeadlineOf(p, now);
    var err := if p.ParseFailed? then Some(p.message) else s.err;
    Step(s.(guide := guide, word := word, err := err, deadline := Some(deadline)),
         [Listen, StartTimer(deadline)])
  }

  /** The Enter key (main.go:74-86): the input line, trimmed, is a local
      command or a message to send. */
  function Submit(s: State): (r: Step)
    ensures r.next.connected == s.connected
    ensures Quit in r.cmds ==> r.cmds == [Quit] && r.next == s
    ensures Listen !in r.cmds && StartPinger !in r.cmds && TimerStep !in r.cmds
    ensures Quit in r.cmds <==> TrimSpace(s.input) == "/exit"
    ensures TrimSpace(s.input) == "/exit" ==> r == Step(s, [Quit])
    ensures TrimSpace(s.input) == "/clear" ==> r == Step(s.(chat := [], input := ""), [])
    ensures TrimSpace(s.input) != "/exit" && TrimSpace(s.input) != "/clear" ==>
      && r.next == s
      && (r.cmds == [Send(TrimSpace(s.input))] <==> s.connected && TrimSpace(s.input) != "")
      && (r.cmds == [] <==> !s.connected || TrimSpace(s.input) == "")
  {
    var trimmed := TrimSpace(s.input);
    if trimmed == "/exit" then Step(s, [Quit])
    else if trimmed == "/clear" then Step(s.(chat := [], input := ""), [])
    else if s.connected && trimmed != "" then Step(s, [Send(trimmed)])
    else Step(s, [])
  }

  /** A key press (main.go:66-87): Ctrl+C quits, Ctrl+E empties the error
      slot, Enter submits the input line, and any other key is left to the
      input widget. */
  function OnKey(s: State, key: string): (r: Step)
    ensures r.next.connected == s.connected
    ensures Quit in r.cmds ==> r.cmds == [Quit] && r.next == s
    ensures Quit in r.cmds <==> key == "ctrl+c" || (key == "enter" && TrimSpace(s.input) == "/exit")
    ensures Listen !in r.cmds && StartPinger !in r.cmds && TimerStep !in r.cmds
  {
    if key == "ctrl+c" then Step(s, [Quit])
    else if key == "ctrl+e" then Step(s.(err := None), [])
    else if key == "enter" then Submit(s)
    else Step(s, [])
  }

  /** `model.Update` (main.go:62-178). The clock reading `now` and the
      RFC 3339 parser `parseTime` are parameters. Every command other than
      Quit comes alone; a quit leaves the state as it is; the connection,
      once set, stays set; and an inbound event, or the connection becoming
      ready, arms exactly one read while every other event arms none. */
  function Update(s: State, e: Event, now: int, parseTime: string -> TimeParse): (r: Step)
    requires WellShaped(e)
    ensures Quit in r.cmds ==> r.cmds == [Quit] && r.next == s
    ensures r.next.connected == (s.connected || e.ConnectionReady?)
    ensures multiset(r.cmds)[Listen] == if IsInbound(e) || e.ConnectionReady? then 1 else 0
    ensures Quit in r.cmds <==>
      e.KeyPress? && (e.key == "ctrl+c" || (e.key == "enter" && TrimSpace(s.input) == "/exit"))
    ensures StartPinger in r.cmds <==> e.ConnectionReady?
    ensures TimerStep in r.cmds <==> e.TimerTick?
  {
    match e
    case KeyPress(key) => OnKey(s, key)
    case InputEdited(text) => Step(s.(input := text), [])
    case TimerTick => Step(s, [TimerStep])
    case ConnectionReady =>
      Step(s.(connected := true), [Listen, StartPinger])
    case Failed(message) => Step(s.(err := Some(message)), [])
    case SuccessSent => Step(s.(input := ""), [])
    case WsPong => Step(s, [Listen])
    case WsFailed(message) => Step(s.(err := Some(message)), [Listen])
    case WsChat(text) => Step(s.(chat := ChatLog.AppendMessage(s.chat, text)), [Listen])
    case WsOngoingRoundInfo(content) =>
      EnterRound(s, GuessGuide, content[WordToGuessKey],
                 parseTime(content[RoundFinishTimeKey]), now)
    case WsFinishedRoundInfo(content) =>
      EnterRound(s, AnswerGuide, content[WordAnswerKey],
                 parseTime(content[ToNextRoundTimeKey]), now)
    case WsFinishedGame => Step(s.(guide := WaitingGuide, word := ""), [Listen])
  }

  /** Ctrl+C quits at once, whatever the state. */
  lemma CtrlCQuits(s: State, now: int, parseTime: string -> TimeParse)
    ensures Update(s, KeyPress("ctrl+c"), now, parseTime) == Step(s, [Quit])
  {
  }

  /** An edit of the input line replaces its text and touches nothing
      else. */
  lemma InputEditedSetsInput(s: State, text: string, now: int, parseTime: string -> TimeParse)
    ensures Update(s, InputEdited(text), now, parseTime) == Step(s.(input := text), [])
  {
  }

  /** The Enter rules are reachable from the initial state: once the
      connection is ready and a line has been typed, Enter sends the line,
      trimmed. */
  lemma TypedLineIsSent(text: string, now: int, parseTime: string -> TimeParse)
    requires var t := TrimSpace(text); t != "" && t != "/exit" && t != "/clear"
    ensures var s := Run(Initial(), [ConnectionReady, InputEdited(text)], [now, now], parseTime);
      && s.connected && s.input == text
      && Update(s, KeyPress("enter"), now, parseTime) == Step(s, [Send(TrimSpace(text))])
  {
    var s1 := Update(Initial(), ConnectionReady, now, parseTime).next;
    var s2 := Update(s1, InputEdited(text), now, parseTime).next;
    assert Run(s2, [], [], parseTime) == s2;
    assert Run(s1, [InputEdited(text)], [now], parseTime) == s2;
  }

  /** The events that only arm the next step: other keys (left to the input
      widget) change nothing, a tick steps the timer, the connection sets
      only the connection flag and starts reading and pinging, and a pong
      re-arms the read. */
  lemma QuietEvents(s: State, key: string, now: int, parseTime: string -> TimeParse)
    requires key != "ctrl+c" && key != "ctrl+e" && key != "enter"
    ensures Update(s, KeyPress(key), now, parseTime) == Step(s, [])
    ensures Update(s, TimerTick, now, parseTime) == Step(s, [TimerStep])
    ensures Update(s, ConnectionReady, now, parseTime) == Step(s.(connected := true), [Listen, StartPinger])
    ensures Update(s, WsPong, now, parseTime) == Step(s, [Listen])
  {
  }

  /** Enter on an input that trims to "/exit" quits, whatever the
      connection, the chat log or the surrounding white space. */
  lemma ExitQuits(s: State, pad1: string, pad2: string, now: int, parseTime: string -> TimeParse)
    requires AllSpace(pad1) && AllSpace(pad2)
    requires s.input == pad1 + "/exit" + pad2
    ensures Update(s, KeyPress("enter"), now, parseTime) == Step(s, [Quit])
  {
    TrimSpaceOfPadded(pad1, "/exit", pad2);
  }

  /** Enter on an input that trims to "/clear" empties the chat log and the
      input, sends nothing, and leaves everything else alone, connected or
      not. */
  lemma ClearWipesChat(s: State, now: int, parseTime: string -> TimeParse)
    requires TrimSpace(s.input) == "/clear"
    ensures Update(s, KeyPress("enter"), now, parseTime) == Step(s.(chat := [], input := ""), [])
  {
  }

  /** Enter on any other input sends the trimmed text once when connected
      and it is not empty, and otherwise does nothing; in both cases the
      state, the input included, is unchanged: the input is cleared only
      when the write succeeds. */
  lemma EnterSendsTrimmed(s: State, now: int, parseTime: string -> TimeParse)
    requires TrimSpace(s.input) != "/exit" && TrimSpace(s.input) != "/clear"
    ensures var r := Update(s, KeyPress("enter"), now, parseTime);
      && r.next == s
      && (s.connected && TrimSpace(s.input) != "" <==> r.cmds == [Send(TrimSpace(s.input))])
      && (!s.connected || TrimSpace(s.input) == "" <==> r.cmds == [])
  {
  }

  /** A write success clears the input and nothing else. */
  lemma SuccessSentClearsInput(s: State, now: int, parseTime: string -> TimeParse)
    ensures Update(s, SuccessSent, now, parseTime) == Step(s.(input := ""), [])
  {
  }

  /** The error slot holds the latest error only: Ctrl+E empties it and
      touches nothing else; a failure overwrites it. */
  lemma ErrorSlot(s: State, message: string, now: int, parseTime: string -> TimeParse)
    ensures Update(s, KeyPress("ctrl+e"), now, parseTime) == Step(s.(err := None), [])
    ensures Update(s, Failed(message), now, parseTime) == Step(s.(err := Some(message)), [])
    ensures Update(s, WsFailed(message), now, parseTime) == Step(s.(err := Some(message)), [Listen])
  {
  }

  /** A chat message becomes the last entry of the log, which keeps the
      most recent entries in arrival order and stays within capacity. */
  lemma ChatAppends(s: State, msg: string, now: int, parseTime: string -> TimeParse)
    requires |s.chat| <= ChatLog.ChatMessagesMax
    ensures var r := Update(s, WsChat(msg), now, parseTime);
      && r.next == s.(chat := ChatLog.LastN(s.chat + [msg], ChatLog.ChatMessagesMax))
      && r.next.chat[|r.next.chat| - 1] == msg
      && |r.next.chat| <= ChatLog.ChatMessagesMax
      && r.cmds == [Listen]
  {
  }

  /** Round events overwrite the word box unconditionally and restart the
      countdown, at `now` when the timestamp does not parse, in which case
      the parse error is recorded; the round changes in either case. */
  lemma RoundEvents(s: State, content: map<string, string>, now: int, parseTime: string -> TimeParse)
    ensures WordToGuessKey in content && RoundFinishTimeKey in content ==>
      var p := parseTime(content[RoundFinishTimeKey]);
      Update(s, WsOngoingRoundInfo(content), now, parseTime)
        == Step(s.(guide := GuessGuide, word := content[WordToGuessKey],
                   deadline := Some(DeadlineOf(p, now)),
                   err := if p.ParseFailed? then Some(p.message) else s.err),
                [Listen, StartTimer(DeadlineOf(p, now))])
    ensures WordAnswerKey in content && ToNextRoundTimeKey in content ==>
      var p := parseTime(content[ToNextRoundTimeKey]);
      Update(s, WsFinishedRoundInfo(content), now, parseTime)
        == Step(s.(guide := AnswerGuide, word := content[WordAnswerKey],
                   deadline := Some(DeadlineOf(p, now)),
                   err := if p.ParseFailed? then Some(p.message) else s.err),
                [Listen, StartTimer(DeadlineOf(p, now))])
    ensures Update(s, WsFinishedGame, now, parseTime)
      == Step(s.(guide := WaitingGuide, word := ""), [Listen])
  {
  }

  /** What every reachable state satisfies: the chat log is within
      capacity, the guide is one of the three texts, an empty word box goes
      with the waiting guide, and a round in progress has a deadline. */
  predicate Inv(s: State) {
    && |s.chat| <= ChatLog.ChatMessagesMax
    && (s.guide == WaitingGuide ==> s.word == "")
    && (s.guide != WaitingGuide ==> s.deadline.Some?)
  }

  /** The round phase the state is in. */
  datatype RoundPhase =
    | AwaitingStart
    | Active(word: string, deadline: int)
    | Revealed(answer: string, deadline: int)

  function Phase(s: State): RoundPhase
    requires Inv(s)
  {
    if s.guide == GuessGuide then Active(s.word, s.deadline.value)
    else if s.guide == AnswerGuide then Revealed(s.word, s.deadline.value)
    else AwaitingStart
  }

  /** The round state machine on its own: only the three round events
      change the phase, and each replaces it outright. */
  function PhaseAfter(p: RoundPhase, e: Event, now: int, parseTime: string -> TimeParse): RoundPhase
    requires WellShaped(e)
  {
    match e
    case WsOngoingRoundInfo(c) =>
      Active(c[WordToGuessKey], DeadlineOf(parseTime(c[RoundFinishTimeKey]), now))
    case WsFinishedRoundInfo(c) =>
      Revealed(c[WordAnswerKey], DeadlineOf(parseTime(c[ToNextRoundTimeKey]), now))
    case WsFinishedGame => AwaitingStart
    case _ => p
  }

  /** The reducer keeps the invariant, and its effect on the round phase is
      exactly the round state machine's. */
  lemma UpdateFollowsPhases(s: State, e: Event, now: int, parseTime: string -> TimeParse)
    requires Inv(s) && WellShaped(e)
    ensures Inv(Update(s, e, now, parseTime).next)
    ensures Phase(Update(s, e, now, parseTime).next) == PhaseAfter(Phase(s), e, now, parseTime)
  {
    var next := Update(s, e, now, parseTime).next;
    match e
    case KeyPress(key) =>
      KeyPressKeepsRound(s, key, now, parseTime);
    case WsChat(text) =>
      assert next == s.(chat := ChatLog.AppendMessage(s.chat, text));
    case WsOngoingRoundInfo(c) =>
      var d := DeadlineOf(parseTime(c[RoundFinishTimeKey]), now);
      assert next.guide == GuessGuide && next.word == c[WordToGuessKey] && next.deadline == Some(d);
    case WsFinishedRoundInfo(c) =>
      var d := DeadlineOf(parseTime(c[ToNextRoundTimeKey]), now);
      assert next.guide == AnswerGuide && next.word == c[WordAnswerKey] && next.deadline == Some(d);
    case WsFinishedGame =>
      assert next.guide == WaitingGuide && next.word == "";
    case _ =>
      assert next.guide == s.guide && next.word == s.word && next.deadline == s.deadline;
      assert next.chat == s.chat;
  }

  /** A key press leaves the state alone, or empties the error slot, or
      empties the chat log and the input. */
  lemma KeyPressKeepsRound(s: State, key: string, now: int, parseTime: string -> TimeParse)
    ensures var next := Update(s, KeyPress(key), now, parseTime).next;
      next == s || next == s.(err := None) || next == s.(chat := [], input := "")
  {
  }


  /** The run of the reducer over a sequence of events, the `i`th of which
      arrives at clock reading `times[i]`. */
  function Run(s: State, events: seq<Event>, times: seq<int>, parseTime: string -> TimeParse): State
    requires |times| == |events|
    requires forall i :: 0 <= i < |events| ==> WellShaped(events[i])
    decreases |events|
  {
    if events == [] then s
    else Run(Update(s, events[0], times[0], parseTime).next, events[1..], times[1..], parseTime)
  }

  /** Every state reachable from the initial one satisfies the invariant;
      in particular the chat log never holds more than twelve messages. */
  lemma {:induction false} RunKeepsInv(s: State, events: seq<Event>, times: seq<int>,
                                       parseTime: string -> TimeParse)
    requires Inv(s)
    requires |times| == |events|
    requires forall i :: 0 <= i < |events| ==> WellShaped(events[i])
    ensures Inv(Run(s, events, times, parseTime))
    decreases |events|
  {
    if events != [] {
      UpdateFollowsPhases(s, events[0], times[0], parseTime);
      RunKeepsInv(Update(s, events[0], times[0], parseTime).next, events[1..], times[1..], parseTime);
    }
  }
}
