/**
 * The text of a log line, shared by the render queue's own buffer and the
 * service logger: `[<timestamp>] <message>`, and for errors
 * `[<timestamp>] ERROR: <message>`. The timestamp is the caller's
 * (an ISO-8601 string, which never contains ']').
 */
module LogEntries {
  import opened Wrappers

  /**
   * The line `[ts] message`. As long as the timestamp has no ']', the line
   * names its timestamp and message unambiguously.
   */
  function Entry(ts: string, message: string): (line: string)
    ensures ']' !in ts ==> ParseEntry(line) == Some((ts, message))
  {
    var line := "[" + ts + "] " + message;
    if ']' in ts then line
    else
      assert line[1..] == ts + [']'] + (" " + message);
      FirstIndexAfter(ts, ']', " " + message);
      assert line[1..|ts| + 1] == ts;
      assert line[|ts| + 3..] == message;
      line
  }

  /** An error line is a plain line whose message starts with "ERROR: ". */
  function ErrorEntry(ts: string, message: string): (line: string)
    ensures ']' !in ts ==> ParseEntry(line) == Some((ts, "ERROR: " + message))
  {
    Entry(ts, "ERROR: " + message)
  }

  /** Index of the first occurrence of c in s. */
  function FirstIndex(s: string, c: char): (r: Option<nat>)
    ensures r.Some? ==> r.value < |s| && s[r.value] == c && c !in s[..r.value]
    ensures r.None? ==> c !in s
  {
    if s == [] then None
    else if s[0] == c then Some(0)
    else match FirstIndex(s[1..], c)
      case None => None
      case Some(k) => assert s[..k + 1] == [s[0]] + s[1..][..k]; Some(k + 1)
  }

  /** Splits a log line back into its timestamp and message. */
  function ParseEntry(line: string): Option<(string, string)> {
    if |line| < 1 || line[0] != '[' then None
    else match FirstIndex(line[1..], ']')
      case None => None
      case Some(k) =>
        if k + 2 < |line| && line[k + 2] == ' ' then Some((line[1..k + 1], line[k + 3..]))
        else None
  }

  lemma FirstIndexAfter(s: string, c: char, t: string)
    requires c !in s
    ensures FirstIndex(s + [c] + t, c) == Some(|s|)
  {
    var u := s + [c] + t;
    assert u[|s|] == c;
    assert u[..|s|] == s;
  }

  /** Two lines with ']'-free timestamps are equal only when timestamp and message are. */
  lemma EntryInjective(ts1: string, m1: string, ts2: string, m2: string)
    requires ']' !in ts1 && ']' !in ts2 && Entry(ts1, m1) == Entry(ts2, m2)
    ensures ts1 == ts2 && m1 == m2
  {
  }
}
