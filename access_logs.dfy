/**
 * components/AccessLogs.tsx: `[...logs].sort(...)`, a copy of the log sorted newest first,
 * and the placeholder row shown when there is nothing to list. Array.prototype.sort is
 * stable, so the sort is modelled as a stable insertion sort on timestamps.
 */
module AccessLogs {
  import opened Types

  /** Newest first: no entry is older than one after it. */
  predicate NewestFirst(s: seq<LogEntry>) {
    forall i, j :: 0 <= i < j < |s| ==> s[i].timestamp >= s[j].timestamp
  }

  /** Puts `x` after every entry at least as recent, and before the first older one. */
  function Insert(s: seq<LogEntry>, x: LogEntry): (r: seq<LogEntry>)
    requires NewestFirst(s)
    ensures |r| == |s| + 1
    ensures multiset(r) == multiset(s) + multiset{x}
    ensures NewestFirst(r)
    ensures r[0] == x || (s != [] && r[0] == s[0])
  {
    if s == [] then [x]
    else if s[0].timestamp < x.timestamp then [x] + s
    else
      var rest := Insert(s[1..], x);
      assert s == [s[0]] + s[1..];
      ConsNewestFirst(s[0], rest);
      [s[0]] + rest
  }

  /** An entry at least as recent as the head of a sorted log can go in front of it. */
  lemma ConsNewestFirst(h: LogEntry, s: seq<LogEntry>)
    requires NewestFirst(s) && (s == [] || h.timestamp >= s[0].timestamp)
    ensures NewestFirst([h] + s)
  {
    var r := [h] + s;
    forall i, j | 0 <= i < j < |r| ensures r[i].timestamp >= r[j].timestamp {
      if i == 0 {
        assert r[j] == s[j - 1];
        if j > 1 {
          assert s[0].timestamp >= s[j - 1].timestamp;
        }
      } else {
        assert r[i] == s[i - 1] && r[j] == s[j - 1];
      }
    }
  }

  /** sortedLogs: the entries of the log, each as often as it occurs, newest first. */
  function SortedLogs(logs: seq<LogEntry>): (r: seq<LogEntry>)
    ensures |r| == |logs|
    ensures multiset(r) == multiset(logs)
    ensures NewestFirst(r)
  {
    if logs == [] then []
    else
      var n := |logs| - 1;
      assert logs == logs[..n] + [logs[n]];
      Insert(SortedLogs(logs[..n]), logs[n])
  }

  /** A log that is already newest first comes back as it was. */
  lemma {:induction false} SortKeepsSortedLog(logs: seq<LogEntry>)
    requires NewestFirst(logs)
    ensures SortedLogs(logs) == logs
  {
    if logs != [] {
      var n := |logs| - 1;
      SortKeepsSortedLog(logs[..n]);
      InsertLast(logs[..n], logs[n]);
    }
  }

  /** Inserting an entry no more recent than any already there puts it at the end. */
  lemma {:induction false} InsertLast(s: seq<LogEntry>, x: LogEntry)
    requires NewestFirst(s)
    requires forall i :: 0 <= i < |s| ==> s[i].timestamp >= x.timestamp
    ensures Insert(s, x) == s + [x]
  {
    if s != [] {
      InsertLast(s[1..], x);
      assert s == [s[0]] + s[1..];
    }
  }

  /** Sorting a sorted copy again changes nothing. */
  lemma SortIdempotent(logs: seq<LogEntry>)
    ensures SortedLogs(SortedLogs(logs)) == SortedLogs(logs)
  {
    SortKeepsSortedLog(SortedLogs(logs));
  }

  /** The table shows the placeholder row exactly when the log is empty. */
  function ShowsPlaceholder(logs: seq<LogEntry>): (b: bool)
    ensures b <==> logs == []
  {
    |SortedLogs(logs)| == 0
  }
}
