/**
 * The activity log of the main screen: a newest-first list of entries that
 * never grows past fifty. The clock-formatted time of an entry is passed in.
 */
module Activity {

  /** What an entry reports. */
  datatype LogType = NfcDetected | ApiSuccess | ApiError | ServerInfo

  /** One line of the log: its "HH:mm:ss" time, its text and its kind. */
  datatype LogEntry = LogEntry(timestamp: string, message: string, logType: LogType)

  /** The most entries the log keeps. */
  const MaxLogs: nat := 50

  /**
   * The log after recording `entry`: the entry goes in front, and when that
   * makes the log longer than the bound, the last (oldest) entry is dropped.
   */
  function WithNewest(logs: seq<LogEntry>, entry: LogEntry): (r: seq<LogEntry>)
    ensures |r| >= 1 && r[0] == entry
    ensures |logs| < MaxLogs ==> |r| == |logs| + 1 && r[1..] == logs
    ensures |logs| >= MaxLogs ==> |r| == |logs| && r[1..] == logs[..|logs| - 1]
    ensures |logs| <= MaxLogs ==> |r| <= MaxLogs
  {
    var added := [entry] + logs;
    if |added| > MaxLogs then added[..|added| - 1] else added
  }

  /** Holds the state of the main screen that the model covers: its log. */
  class MainActivity {
    var logs: seq<LogEntry>

    constructor()
      ensures logs == []
    {
      logs := [];
    }

    /** `addLog`: record a message of a kind, stamped with the given time. */
    method AddLog(message: string, logType: LogType, timestamp: string)
      modifies this
      ensures logs == WithNewest(old(logs), LogEntry(timestamp, message, logType))
      ensures logs[0] == LogEntry(timestamp, message, logType)
      ensures |old(logs)| < MaxLogs ==> logs[1..] == old(logs)
      ensures |old(logs)| == MaxLogs ==> |logs| == MaxLogs && logs[1..] == old(logs)[..MaxLogs - 1]
      ensures |old(logs)| <= MaxLogs ==> |logs| <= MaxLogs
    {
      logs := [LogEntry(timestamp, message, logType)] + logs;
      if |logs| > MaxLogs {
        logs := logs[..|logs| - 1];
      }
    }
  }
}
