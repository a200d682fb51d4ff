# wordgamestui session core in Dafny

A model of the terminal client of a real-time word-guessing game. The
server streams tagged JSON events over a websocket: chat messages, the
start and the end of a round, the end of a game, and pongs. The client
shows a guide text with a countdown, the word box, a chat log of at most
twelve messages, an input line and a single error slot.

The model covers the client's session reducer, Go's `model.Update`,
together with the small pure pieces around it:

- `Session` (session.dfy): the state (`State`), the events the reducer
  receives (`Event`), the commands it returns (`Cmd`: Quit, Listen,
  StartPinger, Send, StartTimer, TimerStep), and `Update` itself. Because
  Go's `model` is a value type, the reducer is a function from a state and
  an event to the next state and a command list. The round phase
  (`RoundPhase`) is an abstraction of the guide text, the word box and the
  deadline, and `PhaseAfter` is the round state machine stated on its own.
  The guide text is one of three fixed texts, so it is held as the enum
  `Guide` whose `Text` is the string shown.
- `ChatLog` (chat_log.dfy): appending a message, dropping the oldest one
  once there are more than twelve.
- `Wire` (wire.dfy): how one websocket read becomes an event (the dispatch
  on the `type` tag), and what the send command does: it refuses "/ping"
  and otherwise writes the text verbatim.
- `View` (view.dfy): the countdown arithmetic of the header line (round to
  100 ms, then whole seconds and tenths), and the chat box transform that
  keeps the last twelve lines.
- `GoStrings` (go_strings.dfy): Go's `strings.TrimSpace`, `strings.Split`
  and `strings.Join` on "\n", the library calls the core relies on.
- `Wrappers` (wrappers.dfy): an `Option` type.

Times are integers in nanoseconds, like Go's `time.Duration`. The clock
reading `now` and the RFC 3339 parser are parameters of `Update`: the
parser is a function from a string to `Parsed(instant)` or
`ParseFailed(message)`.

Three behaviours of the code a reader might not expect:

- A finished-game event does not reset the countdown timer. The timer keeps
  running toward the previous deadline, and `State.deadline` keeps it.
- "/ping" is refused only inside the send command. While there is no
  connection, no send is issued, so submitting "/ping" does nothing and
  records no error.
- A round-info object without its fields, or a frame whose content has the
  wrong shape, makes the Go type assertions panic. Nothing is recorded as a
  decode error. The model states the right shape as a precondition
  (`Session.WellShaped`, `Wire.WellTyped`).

## Model

| member | source | states |
|---|---|---|
| Session.Initial | main.go:46-56 | the initial state has no connection, no error, an empty input line, an empty chat log, no timer, the waiting guide and an empty word box; it satisfies the invariant and is in the AwaitingStart phase |
| Session.DeadlineOf | main.go:133-137 | the deadline of a round is the parsed instant, or the clock reading `now` when the timestamp does not parse (the same rule at main.go:151-155) |
| Session.EnterRound | main.go:129-163 | a round event sets the guide and the word box, sets the deadline to the parsed instant or to `now` when parsing fails, records a parse failure in the error slot and otherwise keeps the old error, leaves the connection, the input and the chat log alone, and issues exactly Listen then StartTimer(deadline) |
| Session.Submit | main.go:74-86 | Enter never changes the connection and never arms a read; on "/exit" it returns only Quit with the state unchanged; on "/clear" it empties the chat log and the input and issues nothing; on anything else it changes no field and issues one Send of the trimmed text exactly when connected and the trimmed text is not empty, nothing otherwise |
| Session.KeyPressKeepsRound | main.go:66-87 | a key press leaves the state as it is, or only empties the error slot, or only empties the chat log and the input: it never touches the round, the deadline or the connection |
| Session.OnKey | main.go:66-87 | a key press never changes the connection and never arms a read, the pinger or the timer; it quits exactly on Ctrl+C or on Enter with an input that trims to "/exit", and then Quit is its only command and the state is unchanged |
| Session.Update | main.go:62-178 | Quit is only ever issued alone, leaves the state unchanged, and is issued exactly for Ctrl+C or for Enter on an input that trims to "/exit"; the connection flag is set by the connection event and never cleared; every inbound websocket event and the connection event arm exactly one Listen, every other event none; the pinger is started exactly on the connection event, and the timer widget is handed exactly the ticks (`TimerStep`, its reply) |
| Session.QuietEvents | main.go:66-113 | a key other than Ctrl+C, Ctrl+E and Enter changes nothing and issues nothing; a tick issues only the timer's step; the connection event sets only the connection flag and issues Listen and StartPinger; a pong changes nothing and issues only Listen |
| Session.InputEditedSetsInput | main.go:174-175 | an edit of the input line replaces its text, touches no other field and issues no command |
| Session.TypedLineIsSent | main.go:74-110 | from the initial state, after the connection is ready and a line is typed, Enter sends the trimmed line once and leaves the state as it is |
| Session.CtrlCQuits | main.go:66-69 | Ctrl+C returns Quit with the state unchanged, whatever the state |
| Session.ExitQuits | main.go:74-79 | Enter on "/exit" with any white space around it returns only Quit, whatever the connection, the chat log or the other fields |
| Session.ClearWipesChat | main.go:81-83 | Enter on an input that trims to "/clear" empties the chat log and the input, issues no command even without a connection, and leaves every other field alone |
| Session.EnterSendsTrimmed | main.go:84-86 | for any other input, Enter issues exactly one Send of the trimmed text if and only if connected and the trimmed text is not empty, nothing otherwise, and changes no field (the input included) |
| Session.SuccessSentClearsInput | main.go:109-110 | a success-sent event clears the input, touches nothing else and issues nothing |
| Session.ErrorSlot | main.go:71-118 | Ctrl+E empties the error slot and changes nothing else; a command error or websocket error overwrites the slot; only the websocket error re-arms a Listen |
| Session.ChatAppends | main.go:120-127 | a chat message becomes the last entry; the log becomes the last twelve entries of the old log plus the message, in arrival order; the length stays at most twelve; only the log changes; exactly one Listen is issued |
| Session.RoundEvents | main.go:129-169 | OngoingRoundInfo sets "PLEASE GUESS!" and word_to_guess; FinishedRoundInfo sets "TIME'S UP! THE ANSWER:" and word_answer; both set the deadline (or `now` and the error on a parse failure) and issue Listen and StartTimer; FinishedGame sets "WAITING ROUND START!" and an empty word and issues Listen |
| Session.UpdateFollowsPhases | main.go:129-169 | the reducer preserves the state invariant, and its effect on the round phase equals the round state machine `PhaseAfter`: only the three round events change the phase, and each replaces it outright |
| Session.RunKeepsInv | main.go:62-178 | along any sequence of events the invariant holds: chat log at most twelve entries, guide one of three texts, waiting guide with an empty word box, a deadline once a round is in progress |
| ChatLog.AppendMessage | main.go:120-125 | appending to a log within capacity gives the last twelve entries of log plus message; the message is the last entry; below capacity nothing is dropped, at capacity exactly the oldest entry is |
| ChatLog.AppendAllKeepsMostRecent | main.go:120-125 | after any sequence of arrivals, a log that started within capacity holds exactly the most recent twelve messages of the whole history, oldest first |
| Wire.Decode | main.go:281-311 | a read always yields an inbound event; it yields the error event exactly when the read failed or the tag is unknown or missing |
| Wire.TagText | main.go:308 | Go's `%s` of the `type` field: a string tag prints as itself, a missing one as "%!s(<nil>)" |
| Wire.UnknownTagReported | main.go:307-308 | an unknown or missing tag yields an error event whose message is "unknown message type: " followed by the tag, and the reducer re-arms the read for it |
| Wire.DecodeFrameOf | main.go:293-306 | each known tag maps to its own event: decoding the frame of an event gives back the event, and decoding a known frame keeps its tag and the content read |
| Wire.SendToServer | main.go:313-328 | the send command writes nothing exactly when the text is "/ping"; otherwise it writes the text verbatim; it reports success exactly when it wrote and the write did not fail, and an error otherwise |
| Wire.ManualPingRefused | main.go:315-319 | submitting a line that trims to "/ping" changes no state, and every command issued is a Send that writes nothing; its error reply lands in the error slot with the input kept |
| Wire.SubmitThenReply | main.go:84-110 | a line submitted while connected is sent once, trimmed and verbatim; the input is cleared if and only if the write succeeds, and a failed write leaves the input and records "c.Write: …" |
| View.GoQuo | main.go:228-229 | Go's truncating division: the remainder is smaller than the divisor and has the dividend's sign; on non-negative operands it agrees with Dafny's division |
| View.RoundToTenth | main.go:218 | the timeout rounded to 100 ms is a multiple of 100 ms, at most 50 ms away from the timeout, rounds halfway values away from zero, and keeps the timeout's sign |
| View.Milliseconds | main.go:228 | Go's `Duration.Milliseconds`: the whole milliseconds truncated toward zero, within one millisecond of the duration on its side of zero, and exact on a whole number of milliseconds |
| View.Remaining | main.go:218 | the time left on the session's timer: none (zero) before the first round event, as Go's zero timer has, and the deadline minus the clock reading afterwards |
| View.HeaderAt | main.go:217-231 | the session's header shows its guide text, with a countdown exactly while there is a deadline and it lies after the clock reading |
| View.InitialHeader | main.go:217-223 | before any round event the header is "WAITING ROUND START!" alone, with no countdown |
| View.HeaderOf | main.go:222-231 | the header keeps the guide and shows a countdown if and only if the timer has time left |
| View.CountdownDigits | main.go:218-230 | while time is left, tenths is in 0..9, seconds is non-negative, seconds*1000 + tenths*100 equals the rounded milliseconds, and the time shown is within 50 ms of the true remaining time |
| View.RoundStartHeader | main.go:129-145 | after a round start, the header shows "PLEASE GUESS!"; the remaining time is the finish instant minus `now`; a countdown is shown only when the finish time parsed and lies in the future; a parse failure shows no countdown |
| View.MessageBoxTransform | main.go:203-207 | the chat box transform's lines are exactly the last twelve lines of its input, in order, or all of them when there are fewer |
| View.MessageBoxKeepsLastLines | main.go:203-207 | input with at most twelve lines is unchanged by the transform; otherwise the result is the input's tail after a line break |
| GoStrings.TrimSpace | main.go:75 | the trimmed input neither starts nor ends with a white-space character |
| GoStrings.TrimSpaceIsTrim | main.go:75 | the trimmed input is a slice of the input with only white space before and after it |
| GoStrings.TrimSpaceOfPadded | main.go:75 | a string with no white space at either end, padded with white space, trims back to itself |
| GoStrings.TrimSpaceUnique | main.go:75 | any slice with no white space at its ends and only white space around it is the result of trimming |
| GoStrings.TrimSpaceIdempotent | main.go:75 | trimming twice gives the same result as trimming once |
| GoStrings.Split | main.go:204 | Go's `strings.Split` on "\n": there is at least one piece, and no piece holds a newline |
| GoStrings.Join | main.go:206 | Go's `strings.Join` with "\n": the joined string starts with the first piece, followed by a newline when there is a second piece |
| GoStrings.JoinSplit | main.go:204-206 | joining the pieces of a split on "\n" gives back the string |
| GoStrings.SplitJoin | main.go:204-206 | splitting the join of newline-free pieces gives back the pieces |
| GoStrings.JoinSuffix | main.go:204-206 | the join of the last pieces is the tail of the whole join after the first pieces and a newline |

## Left out

- Websocket dial, read and write (main.go:263-279, 288, 321, 335) are network I/O. The dial appears only as its outcome: the `ConnectionReady` event, or a `Failed` event for a dial error. A read appears as a `ReadResult` and a write as the error it returned.
- The keepalive loop `periodicallyPingWsServer` and the 1 ms sleep before each read (main.go:284, 330-341) are about concurrency and timing. The loop appears only as the `StartPinger` command, and a failed ping write only as a `Failed` event.
- The Bubble Tea runtime (`Init`, `main`, `tea.Batch`, main.go:58-60, 343-349) is a foreign framework. A batch is a sequence of commands.
- The text-input widget's own update (main.go:174-175) is library state. Keys other than Ctrl+C, Ctrl+E and Enter edit the input inside the widget; the model leaves the state unchanged for the key itself and gives the widget's resulting text as a separate `InputEdited` event, which replaces the input. Cursor movement and the editing keys themselves are not modelled. The widget's own commands, such as cursor blinking, are not modelled. The input width and focus are not modelled either, nor is the input's placeholder text ("connecting..." until the connection is ready, then a hint on how to send, main.go:48, 96), which is presentation only.
- The countdown timer widget is library state (main.go:89-93, 139, 157). Its remaining time, which ticks down by 100 ms on each tick, is modelled as the deadline minus the clock reading (`View.Remaining`). Starting a timer is `StartTimer(deadline)`. `TimerStep` stands for the widget's reply to a tick. In the program that reply is empty for a tick of a timer that has since been replaced by a newer round's timer, or of a timer that has already run out, and then the tick issues nothing. The model does not track which timer is live or whether it is still running, so it issues `TimerStep` on every tick.
- The lipgloss styles and the string rendering of `View` (main.go:180-261) are presentation. Only the countdown arithmetic and the last-twelve-lines transform are modelled.
- JSON decoding and RFC 3339 parsing are library calls. Frames arrive already decoded. Round-info fields are strings, and a `type` field is a string or absent. A non-string `type` value, which Go would print differently, is not modelled.
- The server URL taken from the command line, and its default (main.go:266-271), are not modelled.
- The request context `ctx` (main.go:97) carries no behaviour here and is not modelled.
- View.RoundToTenth: Go's `Duration.Round` saturates at the int64 bounds on overflow, and Go durations wrap at 64 bits. The model uses unbounded integers, because deadlines within the range of real timestamps never reach those bounds.
- GoStrings.TrimSpace: works on decoded characters. Go's handling of invalid UTF-8 bytes in a string is not modelled.
