/** The bot panel's log (src/features/bot/hooks/useBotLog.ts): entries kept in the bot store,
    at most one hundred of them, and the style lookups of the four log types. */
module BotLog {
  import opened Common

  datatype LogType = Info | Success | Failure | Warning

  /** What a caller of `addLog` gives: the type, the message and the optional detail. */
  datatype LogLine = LogLine(logType: LogType, message: string, detail: Option<string>)

  /** The fresh values one entry takes: `${Date.now()}-${random}` and `Date.now()`. */
  datatype Stamp = Stamp(id: string, timestamp: int)

  datatype LogEntry = LogEntry(id: string, logType: LogType, message: string, detail: Option<string>, timestamp: int)

  const LogCap: nat := 100

  function Entry(line: LogLine, stamp: Stamp): (e: LogEntry)
    ensures e.logType == line.logType && e.message == line.message && e.detail == line.detail
    ensures e.id == stamp.id && e.timestamp == stamp.timestamp
  {
    LogEntry(stamp.id, line.logType, line.message, line.detail, stamp.timestamp)
  }

  /** The entries for several lines, each with its own stamp, in order. */
  function Entries(lines: seq<LogLine>, stamps: seq<Stamp>): (r: seq<LogEntry>)
    requires |stamps| >= |lines|
    ensures |r| == |lines|
    ensures forall k :: 0 <= k < |lines| ==> r[k] == Entry(lines[k], stamps[k])
  {
    seq(|lines|, k requires 0 <= k < |lines| => Entry(lines[k], stamps[k]))
  }

  /** Appending and then keeping the last hundred, entry by entry, keeps the last hundred of
      everything appended. */
  lemma TakeLastTwice(logs: seq<LogEntry>, more: seq<LogEntry>, e: LogEntry)
    ensures TakeLast(TakeLast(logs + more, LogCap) + [e], LogCap) == TakeLast(logs + more + [e], LogCap)
  {
    var all := logs + more;
    var kept := TakeLast(all, LogCap);
    assert kept + [e] == (all + [e])[|all| - |kept|..];
  }

  /** `getLogBgClass`. */
  function BgClass(t: LogType): string {
    match t
    case Info => "bg-blue-500/10"
    case Success => "bg-emerald-500/10"
    case Failure => "bg-red-500/15"
    case Warning => "bg-amber-500/10"
  }

  /** `getLogTextClass`. */
  function TextClass(t: LogType): string {
    match t
    case Info => "text-blue-400"
    case Success => "text-emerald-400"
    case Failure => "text-red-400"
    case Warning => "text-amber-400"
  }

  /** `getLogIcon`. */
  function Icon(t: LogType): string {
    match t
    case Info => "ℹ️"
    case Success => "✅"
    case Failure => "❌"
    case Warning => "⚠️"
  }

  /** Every log type has a background class, a text class and an icon, and no two types
      share any of them. */
  lemma StylesDistinguishTypes(a: LogType, b: LogType)
    ensures BgClass(a) != "" && TextClass(a) != "" && Icon(a) != ""
    ensures BgClass(a) == BgClass(b) || TextClass(a) == TextClass(b) || Icon(a) == Icon(b) ==> a == b
  {
  }
}
