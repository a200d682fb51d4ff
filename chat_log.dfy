/** The chat log of the session: an ordered list of messages that keeps at
    most `ChatMessagesMax` entries by dropping the oldest one after an
    append (main.go:19, main.go:120-125). */
module ChatLog {

  /** Capacity of the chat log, and height of the chat box on screen. */
  const ChatMessagesMax: nat := 12

  /** The last `n` entries of `s`, or all of them when there are fewer. */
  function LastN<T>(s: seq<T>, n: nat): (r: seq<T>)
  {
    if |s| <= n then s else s[|s| - n..]
  }

  /** Append `msg`, then drop the oldest entry once the log is longer than
      its capacity. On a log that is within capacity, the result is the
      most recent `ChatMessagesMax` entries of the log followed by `msg`,
      in arrival order, and `msg` is its last entry. */
  function AppendMessage(log: seq<string>, msg: string): (r: seq<string>)
    ensures |log| <= ChatMessagesMax ==> r == LastN(log + [msg], ChatMessagesMax)
    ensures |r| > 0 && r[|r| - 1] == msg
    ensures |log| < ChatMessagesMax ==> r == log + [msg]
    ensures |log| >= ChatMessagesMax ==> r == log[1..] + [msg]
  {
    var appended := log + [msg];
    if |appended| > ChatMessagesMax then appended[1..] else appended
  }

  /** The log after the messages of `msgs` arrive one by one. */
  function AppendAll(log: seq<string>, msgs: seq<string>): seq<string>
    decreases |msgs|
  {
    if msgs == [] then log
    else AppendAll(AppendMessage(log, msgs[0]), msgs[1..])
  }

  /** Starting from a log within capacity, after any number of arrivals the
      log holds exactly the most recent `ChatMessagesMax` messages of the
      whole history, oldest first: it never exceeds its capacity and never
      loses or reorders a recent message. */
  lemma {:induction false} AppendAllKeepsMostRecent(log: seq<string>, msgs: seq<string>)
    requires |log| <= ChatMessagesMax
    ensures AppendAll(log, msgs) == LastN(log + msgs, ChatMessagesMax)
    decreases |msgs|
  {
    if msgs != [] {
      var m, rest := msgs[0], msgs[1..];
      var next := AppendMessage(log, m);
      assert msgs == [m] + rest;
      assert log + [m] + rest == log + msgs;
      calc {
        AppendAll(log, msgs);
        AppendAll(next, rest);
        { AppendAllKeepsMostRecent(next, rest); }
        LastN(next + rest, ChatMessagesMax);
        { LastNOfLastN(log + [m], rest); }
        LastN(log + [m] + rest, ChatMessagesMax);
      }
    } else {
      assert log + msgs == log;
    }
  }

  /** Truncating an intermediate history does not change the final window. */
  lemma LastNOfLastN(a: seq<string>, b: seq<string>)
    ensures LastN(LastN(a, ChatMessagesMax) + b, ChatMessagesMax)
         == LastN(a + b, ChatMessagesMax)
  {
    var n := ChatMessagesMax;
    if |a| > n {
      var t := a[|a| - n..];
      if |t + b| > n {
        assert (t + b)[|t + b| - n..] == (a + b)[|a + b| - n..];
      } else {
        assert b == [];
        assert a + b == a;
      }
    }
  }
}
