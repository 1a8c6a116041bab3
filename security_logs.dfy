// The admin dashboard's security log: a buffer of at most fifty entries that
// live mode prepends to, the level and text filter, and the per-level counts
// under the list. The new entry's id, time and level (a clock reading and a
// random pick in the page) are parameters.

module SecurityLogs {
  import opened Strings
  import opened Lists

  datatype LogEntry = LogEntry(id: int, timestamp: string, level: string, event: string, user: string,
                               ip: string, location: string, details: string, action: string)

  const SecurityLogEntries: seq<LogEntry> := [
    LogEntry(1, "2024-01-15T10:30:15Z", "warning", "Multiple failed login attempts", "john.doe@email.com",
             "192.168.1.100", "San Francisco, CA", "5 consecutive failed login attempts detected", "Account temporarily locked"),
    LogEntry(2, "2024-01-15T10:25:42Z", "info", "Admin login successful", "admin@hirehub.ai",
             "10.0.0.50", "New York, NY", "Administrator successfully logged in", "Session created"),
    LogEntry(3, "2024-01-15T10:20:33Z", "critical", "Suspicious API activity", "api_user_12345",
             "203.0.113.45", "Unknown", "Unusual API request pattern detected - 1000+ requests in 1 minute", "API key suspended"),
    LogEntry(4, "2024-01-15T10:15:28Z", "info", "Password changed", "sarah.johnson@email.com",
             "192.168.1.75", "Austin, TX", "User successfully changed password", "Password updated"),
    LogEntry(5, "2024-01-15T10:10:19Z", "warning", "Unauthorized access attempt", "unknown",
             "198.51.100.23", "Moscow, Russia", "Attempt to access admin panel without proper credentials", "IP blocked temporarily")
  ]

  const Capacity: nat := 50

  /** The entry the live-mode interval creates. */
  function NewLog(id: int, timestamp: string, level: string): LogEntry
  {
    LogEntry(id, timestamp, level, "New security event", "system@hirehub.ai", "10.0.0.1", "System",
             "Automated security check completed", "No action required")
  }

  function Min(a: int, b: int): int
  {
    if a < b then a else b
  }

  /** `[newLog, ...prev.slice(0, 49)]`. */
  function Prepend(logs: seq<LogEntry>, entry: LogEntry): (r: seq<LogEntry>)
    ensures |r| == Min(|logs|, Capacity - 1) + 1 && |r| <= Capacity
    ensures r[0] == entry && r[1..] == logs[..|r| - 1]
  {
    [entry] + logs[..Min(|logs|, Capacity - 1)]
  }

  /** The first fifty entries of a list. */
  function Latest(s: seq<LogEntry>): (r: seq<LogEntry>)
    ensures |r| == Min(|s|, Capacity) && r == s[..|r|]
  {
    s[..Min(|s|, Capacity)]
  }

  function Reversed(s: seq<LogEntry>): (r: seq<LogEntry>)
    ensures |r| == |s| && forall i :: 0 <= i < |s| ==> r[i] == s[|s| - 1 - i]
  {
    if s == [] then [] else Reversed(s[1..]) + [s[0]]
  }

  /** Several ticks in a row, the first entry inserted first. */
  function InsertAll(logs: seq<LogEntry>, entries: seq<LogEntry>): seq<LogEntry>
    decreases |entries|
  {
    if entries == [] then logs else InsertAll(Prepend(logs, entries[0]), entries[1..])
  }

  /** Cutting a tail to fifty before putting entries in front of it changes nothing in the first fifty. */
  lemma LatestOfConcat(a: seq<LogEntry>, b: seq<LogEntry>)
    ensures Latest(a + Latest(b)) == Latest(a + b)
  {
    var l := Latest(b);
    assert forall i :: 0 <= i < |Latest(a + l)| ==> Latest(a + l)[i] == (a + b)[i];
  }

  /**
   * After any non-empty run of ticks the buffer is the newest fifty of all
   * entries seen: the inserted ones, newest first, then the old list.
   */
  lemma {:induction false} InsertAllKeepsLatest(logs: seq<LogEntry>, entries: seq<LogEntry>)
    requires entries != []
    ensures InsertAll(logs, entries) == Latest(Reversed(entries) + logs)
    decreases |entries|
  {
    var x := entries[0];
    var p := Prepend(logs, x);
    assert p == Latest([x] + logs);
    if entries[1..] == [] {
      assert Reversed(entries) == [x];
    } else {
      InsertAllKeepsLatest(p, entries[1..]);
      assert Reversed(entries) == Reversed(entries[1..]) + [x];
      LatestOfConcat(Reversed(entries[1..]), [x] + logs);
      assert Reversed(entries[1..]) + ([x] + logs) == Reversed(entries) + logs;
    }
  }

  /** The level and text filter: the level unless 'all', and the query in the event, the user or the details. */
  predicate MatchesLog(log: LogEntry, filterLevel: string, query: string)
  {
    (filterLevel == "all" || log.level == filterLevel)
    && (IncludesCI(log.event, query) || IncludesCI(log.user, query) || IncludesCI(log.details, query))
  }

  function MatchesAt(filterLevel: string, query: string): LogEntry -> bool
  {
    (log: LogEntry) => MatchesLog(log, filterLevel, query)
  }

  function FilteredLogs(logs: seq<LogEntry>, filterLevel: string, query: string): (r: seq<LogEntry>)
    ensures forall x :: x in r <==> x in logs && MatchesLog(x, filterLevel, query)
    ensures IsSubsequence(r, logs)
  {
    FilterMembers(logs, MatchesAt(filterLevel, query));
    Filter(logs, MatchesAt(filterLevel, query))
  }

  function LevelIs(level: string): LogEntry -> bool
  {
    (log: LogEntry) => log.level == level
  }

  /** A summary tile: how many shown entries have the level. */
  function LevelCount(shown: seq<LogEntry>, level: string): (n: nat)
    ensures n <= |shown|
  {
    |Filter(shown, LevelIs(level))|
  }

  /** The three tiles never add up to more than the list, and exactly to it when every level is one of the three. */
  lemma {:induction false} CountsWithinList(shown: seq<LogEntry>)
    ensures LevelCount(shown, "critical") + LevelCount(shown, "warning") + LevelCount(shown, "info") <= |shown|
    ensures (forall i :: 0 <= i < |shown| ==> shown[i].level in ["critical", "warning", "info"])
      ==> LevelCount(shown, "critical") + LevelCount(shown, "warning") + LevelCount(shown, "info") == |shown|
  {
    if shown != [] {
      CountsWithinList(shown[1..]);
      assert forall i :: 0 <= i < |shown[1..]| ==> shown[1..][i] == shown[i + 1];
    }
  }

  /** With one level chosen the other two tiles read zero. */
  lemma OtherLevelsCountZero(logs: seq<LogEntry>, filterLevel: string, query: string, level: string)
    requires filterLevel != "all" && level != filterLevel
    ensures LevelCount(FilteredLogs(logs, filterLevel, query), level) == 0
  {
    var shown := FilteredLogs(logs, filterLevel, query);
    forall x | x in shown ensures !LevelIs(level)(x) {
    }
    FilterKeepsNone(shown, LevelIs(level));
  }

  /** `getLevelIcon`; an unknown level gets a plain circle. */
  function LevelIcon(level: string): (icon: string)
    ensures icon == "Circle" <==> level !in ["critical", "warning", "info"]
  {
    match level
    case "critical" => "AlertTriangle"
    case "warning" => "AlertCircle"
    case "info" => "Info"
    case _ => "Circle"
  }

  class LogsPanel {
    var logs: seq<LogEntry>
    var filterLevel: string
    var searchQuery: string
    var isLiveMode: bool

    /** The buffer never holds more than fifty entries. */
    predicate Valid()
      reads this
    {
      |logs| <= Capacity
    }

    /** The first render: an empty buffer, every level, live mode on. */
    constructor ()
      ensures logs == [] && filterLevel == "all" && searchQuery == "" && isLiveMode
      ensures Valid()
    {
      logs := [];
      filterLevel := "all";
      searchQuery := "";
      isLiveMode := true;
    }

    /** The mount effect loads the five sample entries. */
    method Mount()
      modifies this
      ensures logs == SecurityLogEntries && Valid()
      ensures filterLevel == old(filterLevel) && searchQuery == old(searchQuery) && isLiveMode == old(isLiveMode)
    {
      logs := SecurityLogEntries;
    }

    /** One firing of the ten-second interval; it runs only in live mode. */
    method Tick(id: int, timestamp: string, level: string)
      requires Valid()
      modifies this
      ensures Valid()
      ensures isLiveMode ==> logs == Prepend(old(logs), NewLog(id, timestamp, level))
      ensures !isLiveMode ==> logs == old(logs)
      ensures filterLevel == old(filterLevel) && searchQuery == old(searchQuery) && isLiveMode == old(isLiveMode)
    {
      if isLiveMode {
        logs := Prepend(logs, NewLog(id, timestamp, level));
      }
    }

    /** The Pause / Resume button. */
    method ToggleLive()
      modifies this
      ensures isLiveMode == !old(isLiveMode) && logs == old(logs)
      ensures filterLevel == old(filterLevel) && searchQuery == old(searchQuery)
    {
      isLiveMode := !isLiveMode;
    }

    method ChooseLevel(level: string)
      modifies this
      ensures filterLevel == level && logs == old(logs) && searchQuery == old(searchQuery) && isLiveMode == old(isLiveMode)
    {
      filterLevel := level;
    }

    method Search(query: string)
      modifies this
      ensures searchQuery == query && logs == old(logs) && filterLevel == old(filterLevel) && isLiveMode == old(isLiveMode)
    {
      searchQuery := query;
    }

    function Shown(): seq<LogEntry>
      reads this
    {
      FilteredLogs(logs, filterLevel, searchQuery)
    }
  }
}
