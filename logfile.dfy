/**
 * `getLogFileName`: the name of the file the run logs to, derived from the optional
 * configuration mapping and the current day (passed in, in place of `date.today()`).
 */
module LogFile {
  import opened Wrappers
  import opened Calendar
  import opened Config

  /** The name used when no configuration is given. */
  const DefaultName: string := "transactions.log"

  /** `dict.get`: the entry under `key`, or `None` when there is none. */
  function Get(entries: map<string, Value>, key: string): Value {
    if key in entries then entries[key] else Null
  }

  /** Python's truth value of a loaded YAML value. */
  predicate Truthy(v: Value) {
    match v
    case Null => false
    case Bool(b) => b
    case Int(i) => i != 0
    case Str(s) => s != ""
    case Mapping(m) => m != map[]
  }

  /** How `"{}".format(v)` renders a scalar (a mapping is rendered by a placeholder). */
  function Display(v: Value): string {
    match v
    case Null => "None"
    case Bool(b) => if b then "True" else "False"
    case Int(i) => Decimal(i)
    case Str(s) => s
    case Mapping(_) => "{...}"
  }

  predicate EndsWithLog(name: string) {
    |name| >= 4 && name[|name| - 4..] == ".log"
  }

  /**
   * `getLogFileName(config)`: the default name without a configuration; otherwise the
   * `filename` entry, followed by `-YYYY-MM-DD` of `today` when `split` is truthy, then `.log`.
   */
  function LogFileName(config: Option<map<string, Value>>, today: CalendarDate): (name: string)
    ensures EndsWithLog(name)
    ensures config.None? ==> name == DefaultName
  {
    match config
    case None => DefaultName
    case Some(c) =>
      if Truthy(Get(c, "split")) then Display(Get(c, "filename")) + "-" + IsoDate(today) + ".log"
      else Display(Get(c, "filename")) + ".log"
  }

  /**
   * With `split` on, the name is the configured file name and a dash, then a
   * date stamp that reads back as `today`, then `.log`.
   */
  lemma SplitNameRecordsDay(c: map<string, Value>, today: CalendarDate)
    requires Truthy(Get(c, "split"))
    ensures var name := LogFileName(Some(c), today);
            && |name| == |Display(Get(c, "filename"))| + 15
            && name[..|name| - 15] == Display(Get(c, "filename"))
            && name[|name| - 15] == '-'
            && ParseIsoDate(name[|name| - 14..|name| - 4]) == Some(today)
  {
    var name := LogFileName(Some(c), today);
    var prefix := Display(Get(c, "filename"));
    assert name == prefix + "-" + IsoDate(today) + ".log";
    assert name[|name| - 14..|name| - 4] == IsoDate(today);
    assert name[..|name| - 15] == prefix;
    IsoDateRoundTrip(today);
  }

  /** With `split` on, each day gets its own log file. */
  lemma SplitNamesDifferByDay(c: map<string, Value>, d1: CalendarDate, d2: CalendarDate)
    requires Truthy(Get(c, "split"))
    requires d1 != d2
    ensures LogFileName(Some(c), d1) != LogFileName(Some(c), d2)
  {
    SplitNameRecordsDay(c, d1);
    SplitNameRecordsDay(c, d2);
  }

  /** With `split` off (or absent), the name does not depend on the day. */
  lemma UnsplitNameIgnoresDay(c: map<string, Value>, d1: CalendarDate, d2: CalendarDate)
    requires !Truthy(Get(c, "split"))
    ensures LogFileName(Some(c), d1) == LogFileName(Some(c), d2) == Display(Get(c, "filename")) + ".log"
  {
  }
}
