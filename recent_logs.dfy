/**
 * The render queue's in-memory log buffer: every line is appended, and once the
 * buffer holds more than LOG_BUFFER_SIZE lines the oldest one is dropped.
 */
module RecentLogs {
  import opened LogEntries

  const LOG_BUFFER_SIZE: nat := 200

  /** The buffer after one append: push, then one shift if it grew past capacity. */
  function Pushed(buf: seq<string>, entry: string): (r: seq<string>)
    ensures |r| == if |buf| < LOG_BUFFER_SIZE then |buf| + 1 else |buf|
    ensures |buf| <= LOG_BUFFER_SIZE ==> |r| <= LOG_BUFFER_SIZE
    ensures r[|r| - 1] == entry
    ensures r[..|r| - 1] == buf[|buf| + 1 - |r|..]
  {
    var grown := buf + [entry];
    if |grown| > LOG_BUFFER_SIZE then grown[1..] else grown
  }

  /** The buffer after appending every entry of entries, in order. */
  function PushedAll(buf: seq<string>, entries: seq<string>): seq<string> {
    if entries == [] then buf
    else Pushed(PushedAll(buf, entries[..|entries| - 1]), entries[|entries| - 1])
  }

  /** The last LOG_BUFFER_SIZE elements of s (all of s when it is shorter). */
  function MostRecent(s: seq<string>): (r: seq<string>)
    ensures |r| == if |s| <= LOG_BUFFER_SIZE then |s| else LOG_BUFFER_SIZE
    ensures r == s[|s| - |r|..]
  {
    if |s| <= LOG_BUFFER_SIZE then s else s[|s| - LOG_BUFFER_SIZE..]
  }

  /** One append to the most recent window of s is the most recent window of s + [entry]. */
  lemma PushedMostRecent(s: seq<string>, entry: string)
    ensures Pushed(MostRecent(s), entry) == MostRecent(s + [entry])
  {
    if |s| >= LOG_BUFFER_SIZE {
      var w := MostRecent(s);
      assert w == s[|s| - LOG_BUFFER_SIZE..];
      assert (w + [entry])[1..] == (s + [entry])[|s| + 1 - LOG_BUFFER_SIZE..];
    }
  }

  /**
   * However many lines are appended, the buffer holds exactly the most recent
   * LOG_BUFFER_SIZE lines seen, oldest first.
   */
  lemma {:induction false} PushedAllKeepsMostRecent(buf: seq<string>, entries: seq<string>)
    requires |buf| <= LOG_BUFFER_SIZE
    ensures PushedAll(buf, entries) == MostRecent(buf + entries)
  {
    if entries == [] {
      assert buf + entries == buf;
    } else {
      var init, last := entries[..|entries| - 1], entries[|entries| - 1];
      assert entries == init + [last];
      assert buf + entries == (buf + init) + [last];
      PushedAllKeepsMostRecent(buf, init);
      PushedMostRecent(buf + init, last);
    }
  }

  class RecentLog {
    var entries: seq<string>

    ghost predicate Valid()
      reads this
    {
      |entries| <= LOG_BUFFER_SIZE
    }

    constructor ()
      ensures Valid() && entries == []
    {
      entries := [];
    }

    method Append(entry: string)
      requires Valid()
      modifies this
      ensures Valid() && entries == Pushed(old(entries), entry)
    {
      entries := entries + [entry];
      if |entries| > LOG_BUFFER_SIZE {
        entries := entries[1..];
      }
    }

    method Log(ts: string, message: string)
      requires Valid()
      modifies this
      ensures Valid() && entries == Pushed(old(entries), Entry(ts, message))
    {
      Append(Entry(ts, message));
    }

    method LogError(ts: string, message: string)
      requires Valid()
      modifies this
      ensures Valid() && entries == Pushed(old(entries), ErrorEntry(ts, message))
    {
      Append(ErrorEntry(ts, message));
    }

    /** A copy of the buffer, oldest line first; the buffer itself is untouched. */
    method GetLogs() returns (r: seq<string>)
      ensures r == entries
    {
      r := entries;
    }
  }
}
