/**
 * The alert engine: turns a metrics snapshot into at most one alert per
 * category (CPU, Memory, Disk), gated by a per-category cooldown, and keeps a
 * bounded history of the alerts it emitted.
 */
module Alerts {
  import opened Wrappers
  import opened Configuration

  /** Seconds that must pass between two alerts of the same kind. */
  const CooldownPeriod: real := 60.0

  /** The number of alerts the history keeps; older ones are dropped first. */
  const HistoryLimit: nat := 50

  datatype Category = CPU | Memory | Disk

  /** The cooldown keys "cpu_high", "memory_high" and "disk_high". */
  datatype AlertKey = CpuHigh | MemoryHigh | DiskHigh

  /** The readings the engine takes from a metrics snapshot: the CPU usage and
      the memory and disk percentages. */
  datatype Snapshot = Snapshot(cpuUsage: real, memoryPercentage: real, diskPercentage: real)

  /** "High <resource> usage: <usage>% (threshold: <threshold>%)", kept as its parts. */
  datatype Message = HighUsage(resource: string, usage: real, threshold: real)

  /** One alert record: its type (severity), category, message, the reading and
      threshold that triggered it, and its creation time as text. */
  datatype Alert = Alert(alertType: string, category: Category, message: Message,
                         value: real, threshold: real, timestamp: string)

  function KeyOf(c: Category): AlertKey {
    match c
    case CPU => CpuHigh
    case Memory => MemoryHigh
    case Disk => DiskHigh
  }

  function ThresholdKey(c: Category): string {
    match c
    case CPU => "cpu_threshold"
    case Memory => "memory_threshold"
    case Disk => "disk_threshold"
  }

  function DefaultThreshold(c: Category): real {
    match c
    case CPU => 80.0
    case Memory => 85.0
    case Disk => 90.0
  }

  /** CPU and memory breaches are warnings; a disk breach is critical. */
  function SeverityOf(c: Category): string {
    match c
    case CPU => "warning"
    case Memory => "warning"
    case Disk => "critical"
  }

  function CategoryName(c: Category): string {
    match c
    case CPU => "CPU"
    case Memory => "Memory"
    case Disk => "Disk"
  }

  function ResourceName(c: Category): string {
    match c
    case CPU => "CPU"
    case Memory => "memory"
    case Disk => "disk"
  }

  function Usage(snap: Snapshot, c: Category): real {
    match c
    case CPU => snap.cpuUsage
    case Memory => snap.memoryPercentage
    case Disk => snap.diskPercentage
  }

  /** The order in which the categories are checked. */
  function Rank(c: Category): nat {
    match c
    case CPU => 0
    case Memory => 1
    case Disk => 2
  }

  // ---------------------------------------------------------------------------
  // One evaluation, as a function of the settings, the snapshot, the clock and
  // the cooldown map
  // ---------------------------------------------------------------------------

  /** `not alerts_config.get('enabled', False)` is false. */
  predicate Enabled(settings: map<string, Value>) {
    Truthy(DictGet(settings, "enabled", Bool(false)))
  }

  /** The threshold for `c`: the setting when present (a bool compares as 0 or 1),
      the default when absent; a present setting of any other kind makes the
      comparison with the reading raise TypeError. */
  function Threshold(settings: map<string, Value>, c: Category): (r: Result<real, Failure>)
    ensures ThresholdKey(c) !in settings ==> r == Ok(DefaultThreshold(c))
    ensures ThresholdKey(c) in settings && settings[ThresholdKey(c)].Num? ==> r == Ok(settings[ThresholdKey(c)].n)
    ensures ThresholdKey(c) in settings && settings[ThresholdKey(c)].Bool? ==>
      r == Ok(if settings[ThresholdKey(c)].b then 1.0 else 0.0)
    ensures r.Err? <==> ThresholdKey(c) in settings && !settings[ThresholdKey(c)].Num? && !settings[ThresholdKey(c)].Bool?
    ensures r.Err? ==> r.error == TypeError
  {
    match DictGet(settings, ThresholdKey(c), Num(DefaultThreshold(c)))
    case Num(n) => Ok(n)
    case Bool(b) => Ok(if b then 1.0 else 0.0)
    case _ => Err(TypeError)
  }

  /** The cooldown gate: the key never fired, or fired at least CooldownPeriod ago. */
  predicate ShouldSend(last: map<AlertKey, real>, key: AlertKey, now: real) {
    key !in last || now - last[key] >= CooldownPeriod
  }

  function NewAlert(c: Category, usage: real, threshold: real, stamp: string): Alert {
    Alert(SeverityOf(c), c, HighUsage(ResourceName(c), usage, threshold), usage, threshold, stamp)
  }

  /** What every alert the engine creates satisfies. */
  predicate WellFormed(a: Alert) {
    && a.alertType == SeverityOf(a.category)
    && a.value > a.threshold
    && a.message == HighUsage(ResourceName(a.category), a.value, a.threshold)
  }

  /** The alerts collected so far in one call, and the cooldown map. */
  datatype Pass = Pass(alerts: seq<Alert>, last: map<AlertKey, real>)

  /** The check of one category. */
  function Step(settings: map<string, Value>, snap: Snapshot, c: Category, now: real, stamp: string, p: Pass): Result<Pass, Failure> {
    match Threshold(settings, c)
    case Err(e) => Err(e)
    case Ok(t) =>
      if Usage(snap, c) > t && ShouldSend(p.last, KeyOf(c), now) then
        Ok(Pass(p.alerts + [NewAlert(c, Usage(snap, c), t, stamp)], p.last[KeyOf(c) := now]))
      else
        Ok(p)
  }

  /** The outcome of a call (the alerts, or the exception that escaped) and the
      cooldown map it leaves behind. */
  datatype Evaluation = Evaluation(result: Result<seq<Alert>, Failure>, last: map<AlertKey, real>)

  /** `check_alerts` with the alerts section `section`: CPU, then Memory, then
      Disk. An exception in a later category leaves earlier cooldown updates in place. */
  function Evaluate(section: Value, snap: Snapshot, now: real, stamp: string, last: map<AlertKey, real>): Evaluation {
    if !section.Obj? then Evaluation(Err(AttributeError), last)
    else if !Enabled(section.fields) then Evaluation(Ok([]), last)
    else
      var settings := section.fields;
      var p0 := Pass([], last);
      match Step(settings, snap, CPU, now, stamp, p0)
      case Err(e) => Evaluation(Err(e), p0.last)
      case Ok(p1) =>
        (match Step(settings, snap, Memory, now, stamp, p1)
         case Err(e) => Evaluation(Err(e), p1.last)
         case Ok(p2) =>
           (match Step(settings, snap, Disk, now, stamp, p2)
            case Err(e) => Evaluation(Err(e), p2.last)
            case Ok(p3) => Evaluation(Ok(p3.alerts), p3.last)))
  }

  // ---------------------------------------------------------------------------
  // What one evaluation does, stated per category
  // ---------------------------------------------------------------------------

  /** The check of `c` is reached: no earlier category's threshold raised. */
  predicate Reached(settings: map<string, Value>, c: Category) {
    match c
    case CPU => true
    case Memory => Threshold(settings, CPU).Ok?
    case Disk => Threshold(settings, CPU).Ok? && Threshold(settings, Memory).Ok?
  }

  predicate AllThresholdsReadable(settings: map<string, Value>) {
    Threshold(settings, CPU).Ok? && Threshold(settings, Memory).Ok? && Threshold(settings, Disk).Ok?
  }

  /** Category `c` emits: alerting is on, its check is reached, its reading is
      strictly above its threshold, and its own cooldown gate passes against the
      cooldown map as it was before the call. */
  predicate Fires(section: Value, snap: Snapshot, c: Category, now: real, last: map<AlertKey, real>) {
    && section.Obj?
    && Enabled(section.fields)
    && Reached(section.fields, c)
    && Threshold(section.fields, c).Ok?
    && Usage(snap, c) > Threshold(section.fields, c).value
    && ShouldSend(last, KeyOf(c), now)
  }

  function Emitted(section: Value, snap: Snapshot, c: Category, now: real, stamp: string, last: map<AlertKey, real>): seq<Alert> {
    if Fires(section, snap, c, now, last) then
      [NewAlert(c, Usage(snap, c), Threshold(section.fields, c).value, stamp)]
    else []
  }

  /** The alerts a successful call returns, category by category. */
  function AlertsOf(section: Value, snap: Snapshot, now: real, stamp: string, last: map<AlertKey, real>): seq<Alert> {
    Emitted(section, snap, CPU, now, stamp, last)
    + Emitted(section, snap, Memory, now, stamp, last)
    + Emitted(section, snap, Disk, now, stamp, last)
  }

  /** How a call ends: AttributeError when the alerts section is not a dict;
      no alerts when alerting is off; TypeError when a threshold cannot be
      compared; otherwise exactly the alerts of the categories that fire. */
  lemma EvaluateResult(section: Value, snap: Snapshot, now: real, stamp: string, last: map<AlertKey, real>)
    ensures var r := Evaluate(section, snap, now, stamp, last).result;
      && (!section.Obj? ==> r == Err(AttributeError))
      && (section.Obj? && !Enabled(section.fields) ==> r == Ok([]))
      && (section.Obj? && Enabled(section.fields) ==>
            r == if AllThresholdsReadable(section.fields) then Ok(AlertsOf(section, snap, now, stamp, last))
                 else Err(TypeError))
  {
    if section.Obj? && Enabled(section.fields) {
      var settings := section.fields;
      var p0 := Pass([], last);
      if Threshold(settings, CPU).Ok? {
        var p1 := Step(settings, snap, CPU, now, stamp, p0).value;
        assert p1.alerts == Emitted(section, snap, CPU, now, stamp, last);
        assert KeyOf(Memory) in p1.last <==> KeyOf(Memory) in last;
        assert KeyOf(Memory) in last ==> p1.last[KeyOf(Memory)] == last[KeyOf(Memory)];
        if Threshold(settings, Memory).Ok? {
          var p2 := Step(settings, snap, Memory, now, stamp, p1).value;
          assert p2.alerts == p1.alerts + Emitted(section, snap, Memory, now, stamp, last);
          assert KeyOf(Disk) in p2.last <==> KeyOf(Disk) in last;
          assert KeyOf(Disk) in last ==> p2.last[KeyOf(Disk)] == last[KeyOf(Disk)];
          if Threshold(settings, Disk).Ok? {
            var p3 := Step(settings, snap, Disk, now, stamp, p2).value;
            assert p3.alerts == p2.alerts + Emitted(section, snap, Disk, now, stamp, last);
          }
        }
      }
    }
  }

  /** The cooldown map after a call: the key of every category that fired holds
      `now`; every other key is exactly as before (present or absent), whether
      the call returned or raised. */
  lemma EvaluateCooldown(section: Value, snap: Snapshot, now: real, stamp: string, last: map<AlertKey, real>, c: Category)
    ensures var last' := Evaluate(section, snap, now, stamp, last).last;
      if Fires(section, snap, c, now, last) then KeyOf(c) in last' && last'[KeyOf(c)] == now
      else (KeyOf(c) in last' <==> KeyOf(c) in last) && (KeyOf(c) in last ==> last'[KeyOf(c)] == last[KeyOf(c)])
  {
    if section.Obj? && Enabled(section.fields) {
      var settings := section.fields;
      var p0 := Pass([], last);
      if Threshold(settings, CPU).Ok? {
        var p1 := Step(settings, snap, CPU, now, stamp, p0).value;
        if Threshold(settings, Memory).Ok? {
          var p2 := Step(settings, snap, Memory, now, stamp, p1).value;
          assert KeyOf(Disk) in p2.last <==> KeyOf(Disk) in last;
          assert KeyOf(Disk) in last ==> p2.last[KeyOf(Disk)] == last[KeyOf(Disk)];
        }
      }
    }
  }

  /** What a record emitted in a call carries: its category's fixed severity, a
      reading strictly above the threshold used, and the call's timestamp. */
  predicate Faithful(a: Alert, section: Value, snap: Snapshot, stamp: string) {
    && WellFormed(a)
    && a.timestamp == stamp
    && a.value == Usage(snap, a.category)
    && section.Obj? && Threshold(section.fields, a.category) == Ok(a.threshold)
  }

  lemma EmittedShape(section: Value, snap: Snapshot, c: Category, now: real, stamp: string, last: map<AlertKey, real>)
    ensures var e := Emitted(section, snap, c, now, stamp, last);
      && |e| <= 1
      && (|e| == 1 <==> Fires(section, snap, c, now, last))
      && forall a | a in e :: a.category == c && Faithful(a, section, snap, stamp)
  {
  }

  /** Three chunks of at most one record each, for CPU, Memory and Disk in turn,
      concatenate to records in strictly increasing category rank. */
  lemma {:induction false} ChunksOrdered(e1: seq<Alert>, e2: seq<Alert>, e3: seq<Alert>)
    requires |e1| <= 1 && |e2| <= 1 && |e3| <= 1
    requires forall a | a in e1 :: a.category == CPU
    requires forall a | a in e2 :: a.category == Memory
    requires forall a | a in e3 :: a.category == Disk
    ensures forall i, j :: 0 <= i < j < |e1 + e2 + e3| ==>
      Rank((e1 + e2 + e3)[i].category) < Rank((e1 + e2 + e3)[j].category)
  {
    var out := e1 + e2 + e3;
    forall i, j | 0 <= i < j < |out| ensures Rank(out[i].category) < Rank(out[j].category) {
      if i < |e1| {
        assert out[i] == e1[i];
      } else {
        assert i < |e1| + |e2|;
        assert out[i] == e2[i - |e1|];
        assert out[j] == e3[j - |e1| - |e2|];
      }
      if j < |e1| + |e2| {
        assert i < |e1|;
        assert out[j] == e2[j - |e1|];
      } else {
        assert out[j] == e3[j - |e1| - |e2|];
      }
    }
  }

  /** The shape of the returned alerts: at most one per category, in CPU, Memory,
      Disk order; category `c` is present exactly when it fires; each record
      carries its category's fixed severity, the reading and the threshold used,
      and the call's timestamp. */
  lemma AlertsOfShape(section: Value, snap: Snapshot, now: real, stamp: string, last: map<AlertKey, real>, c: Category)
    ensures var out := AlertsOf(section, snap, now, stamp, last);
      && |out| <= 3
      && (forall i, j :: 0 <= i < j < |out| ==> Rank(out[i].category) < Rank(out[j].category))
      && (forall a | a in out :: Faithful(a, section, snap, stamp))
      && ((exists a :: a in out && a.category == c) <==> Fires(section, snap, c, now, last))
  {
    var e1 := Emitted(section, snap, CPU, now, stamp, last);
    var e2 := Emitted(section, snap, Memory, now, stamp, last);
    var e3 := Emitted(section, snap, Disk, now, stamp, last);
    EmittedShape(section, snap, CPU, now, stamp, last);
    EmittedShape(section, snap, Memory, now, stamp, last);
    EmittedShape(section, snap, Disk, now, stamp, last);
    ChunksOrdered(e1, e2, e3);
    var out := e1 + e2 + e3;
    assert forall a :: a in out <==> a in e1 || a in e2 || a in e3;
    var ec := match c case CPU => e1 case Memory => e2 case Disk => e3;
    if Fires(section, snap, c, now, last) {
      assert ec[0] in out;
    }
  }

  /** A reading equal to its threshold never alerts, and leaves its cooldown key as it was. */
  lemma EqualUsageNeverAlerts(section: Value, snap: Snapshot, now: real, stamp: string, last: map<AlertKey, real>, c: Category)
    requires section.Obj? && Threshold(section.fields, c) == Ok(Usage(snap, c))
    ensures var e := Evaluate(section, snap, now, stamp, last);
      && (e.result.Ok? ==> forall a | a in e.result.value :: a.category != c)
      && (KeyOf(c) in e.last <==> KeyOf(c) in last)
      && (KeyOf(c) in last ==> e.last[KeyOf(c)] == last[KeyOf(c)])
  {
    EvaluateResult(section, snap, now, stamp, last);
    AlertsOfShape(section, snap, now, stamp, last, c);
    EvaluateCooldown(section, snap, now, stamp, last, c);
  }

  /** With an empty cooldown map every breaching category whose check is reached fires. */
  lemma EmptyCooldownFiresOnBreach(section: Value, snap: Snapshot, now: real, c: Category)
    ensures Fires(section, snap, c, now, map[]) <==>
      && section.Obj? && Enabled(section.fields) && Reached(section.fields, c)
      && Threshold(section.fields, c).Ok? && Usage(snap, c) > Threshold(section.fields, c).value
  {
  }

  /** A CPU reading of 95 over a threshold of 80: the first call emits one
      warning, a second call at the same time emits nothing, and one 60 seconds
      later emits again (but not one 59.5 seconds later). */
  lemma CpuCooldownScenario(t: real, stamp: string)
    ensures var section := Obj(map["enabled" := Bool(true), "cpu_threshold" := Num(80.0)]);
      var snap := Snapshot(95.0, 10.0, 10.0);
      var first := Evaluate(section, snap, t, stamp, map[]);
      && first.result == Ok([Alert("warning", CPU, HighUsage("CPU", 95.0, 80.0), 95.0, 80.0, stamp)])
      && first.last == map[CpuHigh := t]
      && Evaluate(section, snap, t, stamp, first.last).result == Ok([])
      && Evaluate(section, snap, t + 59.5, stamp, first.last).result == Ok([])
      && Evaluate(section, snap, t + 60.0, stamp, first.last).result == Ok([Alert("warning", CPU, HighUsage("CPU", 95.0, 80.0), 95.0, 80.0, stamp)])
  {
    var section := Obj(map["enabled" := Bool(true), "cpu_threshold" := Num(80.0)]);
    var snap := Snapshot(95.0, 10.0, 10.0);
    var a := NewAlert(CPU, 95.0, 80.0, stamp);
    assert Threshold(section.fields, CPU) == Ok(80.0);
    assert Threshold(section.fields, Memory) == Ok(85.0);
    assert Threshold(section.fields, Disk) == Ok(90.0);
    assert [] + [a] == [a];
    var cooled := map[CpuHigh := t];
    assert Step(section.fields, snap, CPU, t, stamp, Pass([], map[])) == Ok(Pass([a], cooled));
    assert Step(section.fields, snap, CPU, t, stamp, Pass([], cooled)) == Ok(Pass([], cooled));
    assert Step(section.fields, snap, CPU, t + 59.5, stamp, Pass([], cooled)) == Ok(Pass([], cooled));
    assert cooled[CpuHigh := t + 60.0] == map[CpuHigh := t + 60.0];
    assert Step(section.fields, snap, CPU, t + 60.0, stamp, Pass([], cooled)) == Ok(Pass([a], map[CpuHigh := t + 60.0]));
  }

  /** A disk reading of 92 over a threshold of 90 emits a critical alert. */
  lemma DiskBreachIsCritical(t: real, stamp: string)
    ensures var section := Obj(map["enabled" := Bool(true), "disk_threshold" := Num(90.0)]);
      Evaluate(section, Snapshot(10.0, 10.0, 92.0), t, stamp, map[]).result
        == Ok([Alert("critical", Disk, HighUsage("disk", 92.0, 90.0), 92.0, 90.0, stamp)])
  {
    var section := Obj(map["enabled" := Bool(true), "disk_threshold" := Num(90.0)]);
    var snap := Snapshot(10.0, 10.0, 92.0);
    var a := NewAlert(Disk, 92.0, 90.0, stamp);
    assert Threshold(section.fields, CPU) == Ok(80.0);
    assert Threshold(section.fields, Memory) == Ok(85.0);
    assert Threshold(section.fields, Disk) == Ok(90.0);
    assert [] + [a] == [a];
    assert Step(section.fields, snap, Disk, t, stamp, Pass([], map[])) == Ok(Pass([a], map[DiskHigh := t]));
  }

  /** Configured thresholds replace the defaults: CPU 60 over a setting of 50
      alerts, memory 87 under a setting of 90 does not (though it is over the
      default 85), and a disk setting of `true` compares as 1. */
  lemma ConfiguredThresholdsScenario(t: real, stamp: string)
    ensures var section := Obj(map["enabled" := Bool(true), "cpu_threshold" := Num(50.0),
                                   "memory_threshold" := Num(90.0), "disk_threshold" := Bool(true)]);
      Evaluate(section, Snapshot(60.0, 87.0, 10.0), t, stamp, map[]).result
        == Ok([Alert("warning", CPU, HighUsage("CPU", 60.0, 50.0), 60.0, 50.0, stamp),
               Alert("critical", Disk, HighUsage("disk", 10.0, 1.0), 10.0, 1.0, stamp)])
  {
    var section := Obj(map["enabled" := Bool(true), "cpu_threshold" := Num(50.0),
                           "memory_threshold" := Num(90.0), "disk_threshold" := Bool(true)]);
    var snap := Snapshot(60.0, 87.0, 10.0);
    var a := NewAlert(CPU, 60.0, 50.0, stamp);
    var d := NewAlert(Disk, 10.0, 1.0, stamp);
    assert Threshold(section.fields, CPU) == Ok(50.0);
    assert Threshold(section.fields, Memory) == Ok(90.0);
    assert Threshold(section.fields, Disk) == Ok(1.0);
    assert [] + [a] == [a];
    var p1 := Pass([a], map[CpuHigh := t]);
    assert Step(section.fields, snap, CPU, t, stamp, Pass([], map[])) == Ok(p1);
    assert Step(section.fields, snap, Memory, t, stamp, p1) == Ok(p1);
    assert Usage(snap, Disk) > 1.0 && ShouldSend(p1.last, DiskHigh, t);
    assert [a] + [d] == [a, d];
    assert Step(section.fields, snap, Disk, t, stamp, p1) == Ok(Pass([a, d], map[CpuHigh := t][DiskHigh := t]));
  }

  /** The fallback thresholds are the ones the default settings hold, and the
      default settings leave alerting off. */
  lemma DefaultsAgree(c: Category, snap: Snapshot, now: real, stamp: string, last: map<AlertKey, real>)
    ensures Lookup(Obj(DefaultConfig()), ["alerts", ThresholdKey(c)]) == Some(Num(DefaultThreshold(c)))
    ensures Evaluate(DefaultConfig()["alerts"], snap, now, stamp, last) == Evaluation(Ok([]), last)
  {
    var alerts := DefaultConfig()["alerts"];
    var k := ThresholdKey(c);
    assert alerts.Obj? && k in alerts.fields && alerts.fields[k] == Num(DefaultThreshold(c)) by {
      match c
      case CPU =>
      case Memory =>
      case Disk =>
    }
    assert ["alerts", k][0] == "alerts" && ["alerts", k][1..] == [k];
    assert Lookup(alerts, [k]) == Lookup(alerts.fields[k], []) by {
      assert [k][0] == k && [k][1..] == [];
    }
  }

  // ---------------------------------------------------------------------------
  // History
  // ---------------------------------------------------------------------------

  /** The newest HistoryLimit elements of `s` (all of them when there are fewer). */
  function KeepLast(s: seq<Alert>): (r: seq<Alert>)
    ensures |r| <= HistoryLimit
  {
    if |s| <= HistoryLimit then s else s[|s| - HistoryLimit..]
  }

  /** Appending one alert and dropping the oldest when over the limit keeps the
      newest HistoryLimit alerts. */
  lemma KeepLastPush(s: seq<Alert>, a: Alert)
    ensures |KeepLast(s) + [a]| > HistoryLimit ==> (KeepLast(s) + [a])[1..] == KeepLast(s + [a])
    ensures |KeepLast(s) + [a]| <= HistoryLimit ==> KeepLast(s) + [a] == KeepLast(s + [a])
  {
    var h := KeepLast(s) + [a];
    if |s| > HistoryLimit {
      assert h[1..] == (s + [a])[|s + [a]| - HistoryLimit..];
    }
  }

  /** Trimming between calls loses nothing the final trim would keep: the history
      after any number of calls is the newest HistoryLimit alerts ever emitted. */
  lemma KeepLastCompose(s: seq<Alert>, t: seq<Alert>)
    ensures KeepLast(KeepLast(s) + t) == KeepLast(s + t)
  {
    if |s| > HistoryLimit {
      var k := KeepLast(s);
      assert k == s[|s| - HistoryLimit..];
      if |k + t| <= HistoryLimit {
        assert t == [];
        assert s + t == s;
      } else {
        var n := |k + t|;
        assert (k + t)[n - HistoryLimit..] == (s + t)[|s + t| - HistoryLimit..];
      }
    }
  }

  predicate AllWellFormed(h: seq<Alert>) {
    forall i :: 0 <= i < |h| ==> WellFormed(h[i])
  }

  /** The capped history of well-formed records is well-formed. */
  lemma KeepLastWellFormed(h: seq<Alert>, alerts: seq<Alert>)
    requires AllWellFormed(h) && AllWellFormed(alerts)
    ensures AllWellFormed(KeepLast(h + alerts))
  {
    var s := h + alerts;
    assert AllWellFormed(s) by {
      forall i | 0 <= i < |s| ensures WellFormed(s[i]) {
        if i >= |h| { assert s[i] == alerts[i - |h|]; }
      }
    }
  }

  // ---------------------------------------------------------------------------
  // Formatting
  // ---------------------------------------------------------------------------

  /** The three display classes: red siren for critical, yellow warning sign for
      warning, cyan information sign for any other type. */
  datatype Marker = Siren | WarningSign | InfoSign

  /** A rendered alert line: "<marker> [<timestamp>] <category>: <message>". */
  datatype Line = Line(marker: Marker, timestamp: string, category: string, message: Message)

  /** `format_alert`: the marker follows the alert's type alone. */
  function FormatAlert(a: Alert): (line: Line)
    ensures line.marker == Siren <==> a.alertType == "critical"
    ensures line.marker == WarningSign <==> a.alertType == "warning"
    ensures line.marker == InfoSign <==> a.alertType != "critical" && a.alertType != "warning"
    ensures line.timestamp == a.timestamp && line.category == CategoryName(a.category) && line.message == a.message
  {
    var marker := if a.alertType == "critical" then Siren
                  else if a.alertType == "warning" then WarningSign
                  else InfoSign;
    Line(marker, a.timestamp, CategoryName(a.category), a.message)
  }

  /** Every alert the engine creates shows a siren if it is about the disk and a
      warning sign otherwise. */
  lemma EngineAlertMarker(a: Alert)
    requires WellFormed(a)
    ensures FormatAlert(a).marker == if a.category == Disk then Siren else WarningSign
  {
  }

  // ---------------------------------------------------------------------------
  // The engine object
  // ---------------------------------------------------------------------------

  class AlertManager {
    /** The settings store the alerts section is read from. */
    const config: Config
    /** The emitted alerts, oldest first. */
    var history: seq<Alert>
    /** When each cooldown key last fired. */
    var lastAlertTime: map<AlertKey, real>

    ghost predicate Valid()
      reads this
    {
      |history| <= HistoryLimit && AllWellFormed(history)
    }

    constructor (config: Config)
      ensures Valid()
      ensures this.config == config && history == [] && lastAlertTime == map[]
    {
      this.config := config;
      history := [];
      lastAlertTime := map[];
    }

    /** `_should_send_alert`: the cooldown gate for `key` at time `now`. */
    function ShouldSendAlert(key: AlertKey, now: real): (b: bool)
      reads this
      ensures b <==> ShouldSend(lastAlertTime, key, now)
    {
      if key !in lastAlertTime then true
      else now - lastAlertTime[key] >= CooldownPeriod
    }

    /** The check of one category within `CheckAlerts`. */
    method CheckCategory(settings: map<string, Value>, snap: Snapshot, c: Category, now: real, stamp: string, alerts: seq<Alert>)
      returns (r: Result<seq<Alert>, Failure>)
      modifies this`lastAlertTime
      ensures match Step(settings, snap, c, now, stamp, Pass(alerts, old(lastAlertTime)))
              case Ok(p) => r == Ok(p.alerts) && lastAlertTime == p.last
              case Err(e) => r == Err(e) && lastAlertTime == old(lastAlertTime)
    {
      var threshold := Threshold(settings, c);
      if threshold.Err? {
        return Err(threshold.error);
      }
      var usage := Usage(snap, c);
      if usage > threshold.value {
        var key := KeyOf(c);
        if ShouldSendAlert(key, now) {
          r := Ok(alerts + [NewAlert(c, usage, threshold.value, stamp)]);
          lastAlertTime := lastAlertTime[key := now];
          return;
        }
      }
      return Ok(alerts);
    }

    /** `check_alerts`: evaluates the snapshot, updates the cooldown map, and on
        success appends the new alerts to the history, keeping the newest
        HistoryLimit. */
    method CheckAlerts(snap: Snapshot, now: real, stamp: string) returns (r: Result<seq<Alert>, Failure>)
      requires Valid()
      modifies this
      ensures Valid()
      ensures var e := Evaluate(old(config.AlertsConfig()), snap, now, stamp, old(lastAlertTime));
              r == e.result && lastAlertTime == e.last
      ensures history == if r.Ok? then KeepLast(old(history) + r.value) else old(history)
    {
      var section := config.AlertsConfig();
      r := EvaluateSection(section, snap, now, stamp);
      if r.Ok? {
        EvaluateResult(section, snap, now, stamp, old(lastAlertTime));
        AlertsOfShape(section, snap, now, stamp, old(lastAlertTime), CPU);
        assert AllWellFormed(r.value) by {
          forall i | 0 <= i < |r.value| ensures WellFormed(r.value[i]) {
            assert r.value[i] in r.value;
          }
        }
        RecordAlerts(r.value);
      }
    }

    /** The three category checks of `check_alerts`, with its early exits. */
    method EvaluateSection(section: Value, snap: Snapshot, now: real, stamp: string) returns (r: Result<seq<Alert>, Failure>)
      modifies this`lastAlertTime
      ensures var e := Evaluate(section, snap, now, stamp, old(lastAlertTime));
              r == e.result && lastAlertTime == e.last
    {
      if !section.Obj? {
        return Err(AttributeError);
      }
      var settings := section.fields;
      if !Truthy(DictGet(settings, "enabled", Bool(false))) {
        return Ok([]);
      }
      r := CheckCategory(settings, snap, CPU, now, stamp, []);
      if r.Err? {
        return;
      }
      r := CheckCategory(settings, snap, Memory, now, stamp, r.value);
      if r.Err? {
        return;
      }
      r := CheckCategory(settings, snap, Disk, now, stamp, r.value);
    }

    /** The history loop of `check_alerts`: each alert is appended and, when the
        history is over the limit, the oldest one is dropped. */
    method RecordAlerts(alerts: seq<Alert>)
      requires Valid() && AllWellFormed(alerts)
      modifies this`history
      ensures Valid()
      ensures history == KeepLast(old(history) + alerts)
    {
      ghost var before := history;
      var i := 0;
      while i < |alerts|
        invariant 0 <= i <= |alerts|
        invariant history == KeepLast(before + alerts[..i])
      {
        ghost var done := before + alerts[..i];
        assert before + alerts[..i + 1] == done + [alerts[i]];
        history := history + [alerts[i]];
        KeepLastPush(done, alerts[i]);
        if |history| > HistoryLimit {
          history := history[1..];
        }
        i := i + 1;
      }
      assert alerts[..i] == alerts;
      KeepLastWellFormed(before, alerts);
    }

    /** `get_alert_history`: the alerts in the history, oldest first. */
    method GetAlertHistory() returns (h: seq<Alert>)
      requires Valid()
      ensures h == history
      ensures |h| <= HistoryLimit && AllWellFormed(h)
    {
      h := history;
    }

    /** `clear_alert_history`: forgets every alert and every cooldown. */
    method ClearAlertHistory()
      modifies this
      ensures Valid()
      ensures history == [] && lastAlertTime == map[]
    {
      history := [];
      lastAlertTime := map[];
    }
  }
}
