/** The daily summary of reflex/tracker/review.py: what `get_daily_summary`
    assembles from the activity store, and `validate_daily_summary`, which
    inspects an arbitrary Python value for the expected shape.

    The store is a snapshot of three reads; each is `None` when that read
    raised. Validation works on a dynamic `Value` that mirrors the Python
    objects the function may be handed, with Python's own `in`, subscript and
    `isinstance` rules, so that its verdict can be compared with a plain
    statement of the expected shape. */
module Summary {
  import opened Base
  import opened Text

  /** The five counters of `get_daily_stats`. They come from SQL `COUNT(*)`
      and `SUM(duration) or 0`, so each is a non-negative integer. */
  datatype Stats = Stats(
    completedTasks: nat,
    pendingTasks: nat,
    focusSessions: nat,
    totalFocusTime: nat,
    logEntries: nat)

  const ZeroStats: Stats := Stats(0, 0, 0, 0, 0)

  /** One field of a database row as Python sees it. */
  datatype Cell = CText(text: string) | CInt(number: int) | CNull

  /** A fetched row: a tuple of fields. */
  type Row = seq<Cell>

  /** A log row: normally a fetched tuple, but the prompt builder also
      accepts a bare string. */
  datatype LogRow = LogTuple(cells: Row) | LogText(text: string)

  /** The three store reads `get_daily_summary` performs: today's counters,
      today's `(entry, timestamp)` log rows and today's `(task, completed)`
      task rows. `None` marks a read that raised. */
  datatype Store = Store(stats: Option<Stats>, logs: Option<seq<LogRow>>, tasks: Option<seq<Row>>)

  /** A store whose every read succeeds. */
  predicate Readable(store: Store) {
    store.stats.Some? && store.logs.Some? && store.tasks.Some?
  }

  datatype DailySummary = DailySummary(stats: Stats, tasks: seq<Row>, logs: seq<LogRow>)

  /** The structure returned when the counters or the logs cannot be read. */
  const EmptySummary: DailySummary := DailySummary(ZeroStats, [], [])

  /** `get_daily_summary` of the newer version. It never raises: a failing
      counter or log read yields the all-zero summary, and a failing task
      read only empties the task list. */
  function GetDailySummary(store: Store): (d: DailySummary)
    ensures store.stats.None? || store.logs.None? ==> d == EmptySummary
    ensures store.stats.Some? && store.logs.Some? ==>
      d.stats == store.stats.value && d.logs == store.logs.value
    ensures store.tasks.Some? && store.stats.Some? && store.logs.Some? ==> d.tasks == store.tasks.value
    ensures store.tasks.None? ==> d.tasks == []
  {
    match (store.stats, store.logs)
    case (Some(stats), Some(logs)) =>
      DailySummary(stats, if store.tasks.Some? then store.tasks.value else [], logs)
    case _ => EmptySummary
  }

  // ----------------------------------------------------------------------
  // Python values and the shape check

  /** The Python values a summary may hold. Dictionaries are keyed by
      strings, which is all the validator ever looks up. */
  datatype Value =
    | VNone
    | VBool(flag: bool)
    | VInt(number: int)
    | VFloat(fraction: real)
    | VStr(text: string)
    | VList(items: seq<Value>)
    | VTuple(items: seq<Value>)
    | VDict(entries: map<string, Value>)

  const SummaryKeys: seq<string> := ["stats", "tasks", "logs"]

  const StatKeys: seq<string> :=
    ["completed_tasks", "pending_tasks", "focus_sessions", "total_focus_time", "log_entries"]

  /** Python's `key in container` for a string key: key lookup in a dict,
      substring test in a str, element test in a list or tuple; `None` when
      the operator raises `TypeError`. */
  function PyIn(key: string, container: Value): (r: Option<bool>)
    ensures container.VDict? ==> r == Some(key in container.entries)
    ensures r.None? <==> !(container.VDict? || container.VStr? || container.VList? || container.VTuple?)
  {
    match container
    case VDict(m) => Some(key in m)
    case VStr(s) => Some(Contains(s, key))
    case VList(items) => Some(VStr(key) in items)
    case VTuple(items) => Some(VStr(key) in items)
    case _ => None
  }

  /** `all(key in container for key in keys)`: stops at the first false
      test; a raising test propagates (`None`). */
  function PyAll(keys: seq<string>, container: Value): Option<bool>
  {
    if keys == [] then Some(true)
    else match PyIn(keys[0], container)
      case None => None
      case Some(false) => Some(false)
      case Some(true) => PyAll(keys[1..], container)
  }

  /** Python's `container[key]` for a string key; `None` when it raises
      (`KeyError` on a dict, `TypeError` on anything else). */
  function PyIndex(container: Value, key: string): (r: Option<Value>)
    ensures r.Some? <==> container.VDict? && key in container.entries
    ensures r.Some? ==> r.value == container.entries[key]
  {
    match container
    case VDict(m) => if key in m then Some(m[key]) else None
    case _ => None
  }

  /** `isinstance(v, (int, float))`; `bool` is a subclass of `int`. */
  predicate IsNumber(v: Value) {
    v.VInt? || v.VFloat? || v.VBool?
  }

  /** The validator's numeric loop: `None` when a lookup raises, otherwise
      whether every looked-up value is numeric. */
  function AllNumeric(stats: Value, keys: seq<string>): Option<bool>
  {
    if keys == [] then Some(true)
    else match PyIndex(stats, keys[0])
      case None => None
      case Some(v) => if !IsNumber(v) then Some(false) else AllNumeric(stats, keys[1..])
  }

  /** The expected shape, stated directly: a dict holding `stats`, `tasks`
      and `logs`, whose `stats` is a dict holding the five counters, each a
      number. Extra keys are allowed. */
  predicate WellFormed(v: Value) {
    && v.VDict?
    && (forall k :: k in SummaryKeys ==> k in v.entries)
    && "stats" in v.entries
    && StatsWellFormed(v.entries["stats"])
  }

  predicate StatsWellFormed(s: Value) {
    s.VDict? && forall k :: k in StatKeys ==> k in s.entries && IsNumber(s.entries[k])
  }

  /** `validate_daily_summary`, with a raise anywhere read as `False`. */
  function ValidateDailySummary(v: Value): bool
  {
    if PyAll(SummaryKeys, v) != Some(true) then false
    else match PyIndex(v, "stats")
      case None => false
      case Some(stats) =>
        if PyAll(StatKeys, stats) != Some(true) then false
        else AllNumeric(stats, StatKeys) == Some(true)
  }

  /** The validator accepts exactly the values of the expected shape. */
  lemma ValidateIffWellFormed(v: Value)
    ensures ValidateDailySummary(v) <==> WellFormed(v)
  {
    if v.VDict? {
      PyAllOnDict(SummaryKeys, v);
      if "stats" in v.entries {
        var stats := v.entries["stats"];
        if stats.VDict? {
          PyAllOnDict(StatKeys, stats);
          if forall k :: k in StatKeys ==> k in stats.entries {
            AllNumericOnDict(StatKeys, stats);
          }
        } else {
          AllNumericNeedsDict(StatKeys, stats);
        }
      }
    }
  }

  /** On a dict the key test never raises and is plain key membership. */
  lemma {:induction false} PyAllOnDict(keys: seq<string>, d: Value)
    requires d.VDict?
    ensures PyAll(keys, d) == Some(forall k :: k in keys ==> k in d.entries)
  {
    if keys != [] {
      PyAllOnDict(keys[1..], d);
      assert forall k :: k in keys ==> k == keys[0] || k in keys[1..];
    }
  }

  lemma {:induction false} AllNumericOnDict(keys: seq<string>, d: Value)
    requires d.VDict?
    requires forall k :: k in keys ==> k in d.entries
    ensures AllNumeric(d, keys) == Some(forall k :: k in keys ==> IsNumber(d.entries[k]))
  {
    if keys != [] {
      AllNumericOnDict(keys[1..], d);
      assert forall k :: k in keys ==> k == keys[0] || k in keys[1..];
    }
  }

  /** Only a dict survives the numeric loop over a non-empty key list. */
  lemma AllNumericNeedsDict(keys: seq<string>, s: Value)
    requires keys != [] && !s.VDict?
    ensures AllNumeric(s, keys).None?
  {
  }

  // ----------------------------------------------------------------------
  // Typed summaries as Python values

  function CellValue(c: Cell): Value {
    match c
    case CText(s) => VStr(s)
    case CInt(n) => VInt(n)
    case CNull => VNone
  }

  function RowValue(row: Row): Value {
    VTuple(seq(|row|, i requires 0 <= i < |row| => CellValue(row[i])))
  }

  function LogValue(l: LogRow): Value {
    match l
    case LogTuple(cells) => RowValue(cells)
    case LogText(s) => VStr(s)
  }

  /** The dict `get_daily_stats` returns. */
  function StatsValue(s: Stats): Value {
    VDict(map[
      "completed_tasks" := VInt(s.completedTasks),
      "pending_tasks" := VInt(s.pendingTasks),
      "focus_sessions" := VInt(s.focusSessions),
      "total_focus_time" := VInt(s.totalFocusTime),
      "log_entries" := VInt(s.logEntries)])
  }

  /** The dict `get_daily_summary` returns. */
  function SummaryValue(d: DailySummary): Value {
    VDict(map[
      "stats" := StatsValue(d.stats),
      "tasks" := VList(seq(|d.tasks|, i requires 0 <= i < |d.tasks| => RowValue(d.tasks[i]))),
      "logs" := VList(seq(|d.logs|, i requires 0 <= i < |d.logs| => LogValue(d.logs[i])))])
  }

  /** Every summary `get_daily_summary` can build passes validation, the
      all-zero fallback included; the "invalid summary" branches of the
      review are therefore never taken. */
  lemma SummaryValidates(d: DailySummary)
    ensures ValidateDailySummary(SummaryValue(d))
  {
    var v := SummaryValue(d);
    ValidateIffWellFormed(v);
    assert forall k :: k in SummaryKeys ==> k in v.entries;
    var s := v.entries["stats"];
    assert s == StatsValue(d.stats);
    assert forall k :: k in StatKeys ==> k in s.entries && IsNumber(s.entries[k]);
  }

  lemma StoreSummaryValidates(store: Store)
    ensures ValidateDailySummary(SummaryValue(GetDailySummary(store)))
    ensures !Readable(store) && (store.stats.None? || store.logs.None?) ==>
      GetDailySummary(store) == EmptySummary
  {
    SummaryValidates(GetDailySummary(store));
  }

  /** A counter held as a string fails validation. */
  lemma TextCounterRejected(d: DailySummary)
    ensures !ValidateDailySummary(VDict(SummaryValue(d).entries["stats" :=
      VDict(StatsValue(d.stats).entries["log_entries" := VStr("3")])]))
  {
    var s := VDict(StatsValue(d.stats).entries["log_entries" := VStr("3")]);
    ValidateIffWellFormed(VDict(SummaryValue(d).entries["stats" := s]));
    assert "log_entries" in StatKeys;
    assert !IsNumber(s.entries["log_entries"]);
  }

  /** A summary without its `logs` key fails validation. */
  lemma MissingKeyRejected(d: DailySummary)
    ensures !ValidateDailySummary(VDict(SummaryValue(d).entries - {"logs"}))
  {
    ValidateIffWellFormed(VDict(SummaryValue(d).entries - {"logs"}));
    assert "logs" in SummaryKeys;
  }

  /** A boolean counter passes, as `bool` is an `int` in Python. */
  lemma BooleanCounterAccepted(d: DailySummary)
    ensures ValidateDailySummary(VDict(SummaryValue(d).entries["stats" :=
      VDict(StatsValue(d.stats).entries["log_entries" := VBool(true)])]))
  {
    var v := VDict(SummaryValue(d).entries["stats" :=
      VDict(StatsValue(d.stats).entries["log_entries" := VBool(true)])]);
    var s := v.entries["stats"];
    ValidateIffWellFormed(v);
    assert forall k :: k in SummaryKeys ==> k in v.entries;
    assert forall k :: k in StatKeys ==> k in s.entries && IsNumber(s.entries[k]);
  }

  /** A non-dict never validates, whatever its contents. */
  lemma NonDictRejected(v: Value)
    requires !v.VDict?
    ensures !ValidateDailySummary(v)
  {
    ValidateIffWellFormed(v);
  }
}
