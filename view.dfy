/** The two computations inside the client's rendering that are not mere
    presentation: the countdown shown next to the guide text
    (main.go:217-231) and the transform that keeps only the last lines of
    the chat box (main.go:203-207). Durations are Go `time.Duration`
    values: integer nanoseconds. */
module View {
  import opened GoStrings
  import opened Wrappers
  import ChatLog
  import Session

  const Millisecond: int := 1_000_000
  const Second: int := 1_000_000_000
  /** The countdown's resolution: 100 ms (main.go:139, main.go:218). */
  const Tenth: int := 100_000_000

  function Abs(x: int): nat { if x < 0 then -x else x }

  /** Go's integer division, which truncates toward zero. */
  function GoQuo(a: int, b: int): (q: int)
    requires b > 0
    ensures a >= 0 ==> q == a / b
    ensures Abs(a - q * b) < b && (a - q * b) * a >= 0
  {
    if a >= 0 then a / b else -((-a) / b)
  }

  /** Go's `%`, whose result takes the sign of the dividend. */
  function GoRem(a: int, b: int): (r: int)
    requires b > 0
    ensures r == a - GoQuo(a, b) * b
  {
    if a >= 0 then a % b else -((-a) % b)
  }

  /** Go's `Duration.Round(100 * time.Millisecond)`: `d` rounded to the
      nearest multiple of 100 ms, halfway values away from zero. The int64
      saturation on overflow is not modelled. */
  function RoundToTenth(d: int): (r: int)
    ensures r % Tenth == 0
    ensures 2 * Abs(r - d) <= Tenth
    ensures 2 * Abs(r - d) == Tenth ==> Abs(r) > Abs(d)
    ensures d >= 0 ==> r >= 0
    ensures d <= 0 ==> r <= 0
  {
    var rem := GoRem(d, Tenth);
    if d < 0 then
      if -rem + -rem < Tenth then d - rem else d - Tenth - rem
    else
      if rem + rem < Tenth then d - rem else d + Tenth - rem
  }

  /** Go's `Duration.Milliseconds()`: whole milliseconds, truncated. */
  function Milliseconds(d: int): (ms: int)
    ensures d >= 0 ==> ms == d / Millisecond
    ensures Abs(d - ms * Millisecond) < Millisecond && (d - ms * Millisecond) * d >= 0
    ensures d % Millisecond == 0 ==> ms * Millisecond == d
  {
    GoQuo(d, Millisecond)
  }

  /** What the header line shows: the guide alone once the timer has run
      out, otherwise the guide with "<seconds>.<tenths>s". */
  datatype Header =
    | GuideOnly(guide: string)
    | GuideWithCountdown(guide: string, seconds: int, tenths: int)

  /** The header for a timer with `timeout` left (main.go:218-231). The
      timer counts as run out when `timeout <= 0`. */
  function HeaderOf(guide: string, timeout: int): (h: Header)
    ensures h.guide == guide
    ensures h.GuideOnly? <==> timeout <= 0
  {
    var ms := Milliseconds(RoundToTenth(timeout));
    if timeout <= 0 then GuideOnly(guide)
    else GuideWithCountdown(guide, GoQuo(ms, 1000), GoQuo(ms - GoQuo(ms, 1000) * 1000, 100))
  }

  /** While the timer runs, the tenths digit is a single digit, and
      seconds and tenths together are the remaining time rounded to 100 ms:
      never more than 50 ms away from the true remaining time. */
  lemma CountdownDigits(guide: string, timeout: int)
    requires timeout > 0
    ensures var h := HeaderOf(guide, timeout);
      && h.GuideWithCountdown?
      && 0 <= h.tenths <= 9 && h.seconds >= 0
      && h.seconds * 1000 + h.tenths * 100 == Milliseconds(RoundToTenth(timeout))
      && h.seconds * Second + h.tenths * Tenth == RoundToTenth(timeout)
      && 2 * Abs(h.seconds * Second + h.tenths * Tenth - timeout) <= Tenth
  {
    var rounded := RoundToTenth(timeout);
    var k := rounded / 100_000_000;
    assert rounded == 100_000_000 * k;
    assert Milliseconds(rounded) == 100 * k;
    var secs := (100 * k) / 1000;
    assert secs == k / 10;
    assert 100 * k - secs * 1000 == 100 * (k % 10);
  }

  /** Time left on the session's countdown timer at clock reading `now`:
      none before the first round event (Go's zero timer), and the distance
      to the deadline afterwards. */
  function Remaining(s: Session.State, now: int): (left: int)
    ensures s.deadline.None? ==> left == 0
    ensures s.deadline.Some? ==> left == s.deadline.value - now
  {
    match s.deadline
    case None => 0
    case Some(t) => t - now
  }

  /** The header line of the session at `now`: the word box's guide, with
      a countdown exactly while a deadline lies ahead. */
  function HeaderAt(s: Session.State, now: int): (h: Header)
    ensures h.guide == s.guide.Text()
    ensures h.GuideWithCountdown? <==> s.deadline.Some? && s.deadline.value > now
  {
    HeaderOf(s.guide.Text(), Remaining(s, now))
  }

  /** Before any round event the header shows the waiting guide alone: Go's
      zero timer has no time left, so it counts as run out. */
  lemma InitialHeader(now: int)
    ensures HeaderAt(Session.Initial(), now) == GuideOnly("WAITING ROUND START!")
  {
  }

  /** Right after a round starts, the header reads "PLEASE GUESS!" and
      counts down to the finish time, or shows no countdown at all when the
      finish time is not in the future; a finish time that does not parse
      expires the countdown at once. */
  lemma RoundStartHeader(s: Session.State, content: map<string, string>, now: int,
                         parseTime: string -> Session.TimeParse)
    requires Session.WordToGuessKey in content && Session.RoundFinishTimeKey in content
    ensures var next := Session.Update(s, Session.WsOngoingRoundInfo(content), now, parseTime).next;
      var p := parseTime(content[Session.RoundFinishTimeKey]);
      && (p.Parsed? ==> Remaining(next, now) == p.instant - now)
      && (p.ParseFailed? ==> HeaderAt(next, now) == GuideOnly("PLEASE GUESS!"))
      && (HeaderAt(next, now).GuideWithCountdown? <==> p.Parsed? && p.instant > now)
      && HeaderAt(next, now).guide == "PLEASE GUESS!"
  {
  }

  /** The chat box transform (main.go:203-207): split on "\n" and keep the
      last `ChatMessagesMax` lines. */
  function MessageBoxTransform(s: string): (r: string)
    ensures Split(r) == ChatLog.LastN(Split(s), ChatLog.ChatMessagesMax)
  {
    var lines := Split(s);
    var from := if |lines| - ChatLog.ChatMessagesMax < 0 then 0 else |lines| - ChatLog.ChatMessagesMax;
    SplitJoin(lines[from..]);
    Join(lines[from..])
  }

  /** The transform keeps a tail of its input: the whole input when it
      has at most `ChatMessagesMax` lines, otherwise the part after a line
      break. */
  lemma MessageBoxKeepsLastLines(s: string)
    ensures |Split(s)| <= ChatLog.ChatMessagesMax ==> MessageBoxTransform(s) == s
    ensures |Split(s)| > ChatLog.ChatMessagesMax ==>
      exists k :: 0 <= k < |s| && s[k] == '\n' && s[k + 1..] == MessageBoxTransform(s)
  {
    var lines := Split(s);
    var n := ChatLog.ChatMessagesMax;
    var from := if |lines| - n < 0 then 0 else |lines| - n;
    var kept := lines[from..];
    assert MessageBoxTransform(s) == Join(kept);
    JoinSplit(s);
    if from > 0 {
      JoinSuffix(lines, from);
      var head := Join(lines[..from]);
      var k := |head|;
      assert s == head + "\n" + Join(kept);
      assert s[k] == '\n' && s[k + 1..] == Join(kept);
    } else {
      assert kept == lines;
    }
  }
}
