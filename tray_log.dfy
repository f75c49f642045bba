/**
 * The log plumbing of the Windows tray launcher (`touchpad_tray.py`): log
 * records go into a bounded queue that drops its oldest entry when full, and
 * the log window periodically drains the queue into its text, one line per
 * message.
 */
module TrayLog {
  import opened Wrappers
  import opened Text

  const QueueLimit: nat := 1000

  /** What a full queue becomes after `emit`: the oldest entry makes room for the new one. */
  function Retained(items: seq<string>, msg: string): (r: seq<string>)
    requires |items| <= QueueLimit
    ensures 1 <= |r| <= QueueLimit
    ensures r[|r| - 1] == msg
    ensures |items| < QueueLimit ==> r[..|r| - 1] == items
    ensures |items| == QueueLimit ==> r[..|r| - 1] == items[1..]
  {
    if |items| < QueueLimit then items + [msg] else items[1..] + [msg]
  }

  /** The queue after emitting each of `msgs` in turn. */
  function EmitAll(items: seq<string>, msgs: seq<string>): (r: seq<string>)
    requires |items| <= QueueLimit
    ensures |r| <= QueueLimit
    decreases |msgs|
  {
    if msgs == [] then items else EmitAll(Retained(items, msgs[0]), msgs[1..])
  }

  function Min(a: int, b: int): int {
    if a <= b then a else b
  }

  /** The queue always holds the most recent messages: the last up to 1000 ever emitted. */
  lemma {:induction false} EmitAllKeepsNewest(items: seq<string>, msgs: seq<string>)
    requires |items| <= QueueLimit
    ensures EmitAll(items, msgs) == (items + msgs)[|items + msgs| - Min(|items + msgs|, QueueLimit)..]
    decreases |msgs|
  {
    var all := items + msgs;
    if msgs == [] {
      assert all == items;
      assert all[|all| - Min(|all|, QueueLimit)..] == all[0..];
    } else {
      var next := Retained(items, msgs[0]);
      EmitAllKeepsNewest(next, msgs[1..]);
      assert EmitAll(items, msgs) == EmitAll(next, msgs[1..]);
      if |items| < QueueLimit {
        assert next + msgs[1..] == all;
      } else {
        FullQueueShifts(items, msgs);
      }
    }
  }

  /** From a full queue, one emission shifts the window of newest messages by one. */
  lemma FullQueueShifts(items: seq<string>, msgs: seq<string>)
    requires |items| == QueueLimit && msgs != []
    ensures var all := items + msgs;
            var all' := Retained(items, msgs[0]) + msgs[1..];
            all'[|all'| - Min(|all'|, QueueLimit)..] == all[|all| - Min(|all|, QueueLimit)..]
  {
    var all := items + msgs;
    var all' := Retained(items, msgs[0]) + msgs[1..];
    assert all' == all[1..];
    assert Min(|all'|, QueueLimit) == QueueLimit && Min(|all|, QueueLimit) == QueueLimit;
    assert all[1..][|all'| - QueueLimit..] == all[|all| - QueueLimit..];
  }

  /** A `queue.Queue(maxsize=QUEUE_LIMIT)` used only through its non-blocking calls. */
  class LogQueue {
    var items: seq<string>

    ghost predicate Valid()
      reads this
    {
      |items| <= QueueLimit
    }

    constructor ()
      ensures items == [] && Valid()
    {
      items := [];
    }

    /** `put_nowait`: false where Python raises `queue.Full`. */
    method PutNowait(msg: string) returns (accepted: bool)
      modifies this`items
      ensures accepted <==> |old(items)| < QueueLimit
      ensures items == if accepted then old(items) + [msg] else old(items)
    {
      if |items| >= QueueLimit {
        return false;
      }
      items := items + [msg];
      return true;
    }

    /** `get_nowait`: None where Python raises `queue.Empty`. */
    method GetNowait() returns (oldest: Option<string>)
      modifies this`items
      ensures old(items) == [] ==> oldest == None && items == []
      ensures old(items) != [] ==> oldest == Some(old(items)[0]) && items == old(items)[1..]
    {
      if items == [] {
        return None;
      }
      oldest := Some(items[0]);
      items := items[1..];
    }
  }

  class QueueHandler {
    const logQueue: LogQueue

    constructor (logQueue: LogQueue)
      ensures this.logQueue == logQueue
    {
      this.logQueue := logQueue;
    }

    /**
     * `emit` on an already formatted message: put it, and when the queue is
     * full drop the oldest entry and put it again. (The `queue.Empty` case only
     * arises when another thread drains the queue in between.)
     */
    method Emit(msg: string)
      requires logQueue.Valid()
      modifies logQueue`items
      ensures logQueue.Valid()
      ensures logQueue.items == Retained(old(logQueue.items), msg)
    {
      var accepted := logQueue.PutNowait(msg);
      if !accepted {
        var dropped := logQueue.GetNowait();
        accepted := logQueue.PutNowait(msg);
      }
    }
  }

  /** `_append`'s text: the message, with a newline added unless it already ends with one. */
  function Line(message: string): (l: string)
    ensures 1 <= |l| && |message| <= |l| <= |message| + 1
    ensures l[|l| - 1] == '\n'
    ensures l[..|message|] == message
    ensures |message| > 0 && message[|message| - 1] == '\n' ==> l == message
  {
    if |message| > 0 && message[|message| - 1] == '\n' then message else message + "\n"
  }

  lemma LineIdempotent(message: string)
    ensures Line(Line(message)) == Line(message)
  {
  }

  /** The text appended for each message of `msgs`, in order. */
  function Joined(msgs: seq<string>): (t: string)
    ensures msgs == [] <==> t == []
  {
    if msgs == [] then [] else Line(msgs[0]) + Joined(msgs[1..])
  }

  lemma {:induction false} JoinedAppend(a: seq<string>, b: seq<string>)
    ensures Joined(a + b) == Joined(a) + Joined(b)
    decreases |a|
  {
    if a == [] {
      assert a + b == b;
    } else {
      assert (a + b)[1..] == a[1..] + b;
      JoinedAppend(a[1..], b);
    }
  }

  /** Draining one more message appends its line to the text shown so far. */
  lemma JoinedSnoc(shown: string, drained: seq<string>, m: string)
    ensures shown + Joined(drained + [m]) == (shown + Joined(drained)) + Line(m)
  {
    JoinedAppend(drained, [m]);
    assert Joined([m]) == Line(m) + Joined([]);
  }

  /** Messages without newlines can be read back from the drained text, one per line. */
  lemma {:induction false} JoinedSplits(msgs: seq<string>)
    requires forall i :: 0 <= i < |msgs| ==> '\n' !in msgs[i]
    ensures SplitLines(Joined(msgs)) == msgs + [""]
    decreases |msgs|
  {
    if msgs == [] {
      assert SplitLines("") == [""];
    } else {
      var m := msgs[0];
      assert '\n' !in m;
      if |m| > 0 {
        assert m[|m| - 1] in m;
      }
      assert Line(m) == m + "\n";
      JoinedSplits(msgs[1..]);
      SplitFirst(m, Joined(msgs[1..]));
      assert Joined(msgs) == m + "\n" + Joined(msgs[1..]);
      assert [m] + (msgs[1..] + [""]) == msgs + [""];
    }
  }

  class LogWindow {
    const logQueue: LogQueue
    var open: bool       // the Tk window and its text widget exist
    var text: string     // the contents of the text widget

    constructor (logQueue: LogQueue)
      ensures this.logQueue == logQueue && !open && text == []
    {
      this.logQueue := logQueue;
      open := false;
      text := [];
    }

    /** `_append`: nothing happens without a text widget. */
    method Append(message: string)
      modifies this`text
      ensures text == old(text) + (if open then Line(message) else [])
    {
      if open {
        text := text + Line(message);
      }
    }

    /**
     * `_drain_queue`: with a window, every queued message is taken in FIFO
     * order and appended; without one the queue is left alone.
     */
    method DrainQueue()
      requires logQueue.Valid()
      modifies logQueue`items, this`text
      ensures logQueue.Valid()
      ensures open ==> logQueue.items == [] && text == old(text) + Joined(old(logQueue.items))
      ensures !open ==> logQueue.items == old(logQueue.items) && text == old(text)
    {
      if !open {
        return;
      }
      ghost var queued := logQueue.items;
      ghost var shown := text;
      ghost var drained: seq<string> := [];
      while true
        invariant drained + logQueue.items == queued
        invariant text == shown + Joined(drained)
        decreases |logQueue.items|
      {
        ghost var rest := logQueue.items;
        var msg := logQueue.GetNowait();
        if msg.None? {
          assert drained == queued;
          return;
        }
        var m := msg.value;
        assert rest == [m] + logQueue.items;
        JoinedSnoc(shown, drained, m);
        drained := drained + [m];
        Append(m);
      }
    }

    /**
     * `show`: the first time, the window is created with an empty text, the
     * log file's name is written first, then the queue is drained. A window
     * that already exists is only raised.
     */
    method Show(logFile: string)
      requires logQueue.Valid()
      modifies this`open, this`text, logQueue`items
      ensures logQueue.Valid() && open
      ensures !old(open) ==>
                logQueue.items == [] && text == "Logging to: " + logFile + "\n\n" + Joined(old(logQueue.items))
      ensures old(open) ==> text == old(text) && logQueue.items == old(logQueue.items)
    {
      if open {
        return;
      }
      open := true;
      text := [];
      var info := "Logging to: " + logFile + "\n\n";
      assert info[|info| - 1] == '\n';
      Append(info);
      DrainQueue();
    }

    /** `destroy`: the window and its text are gone. */
    method Destroy()
      modifies this`open, this`text
      ensures !open && text == []
    {
      open := false;
      text := [];
    }
  }
}
