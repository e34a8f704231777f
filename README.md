# SystemMonitor alert engine and settings store, in Dafny

This project models the two pieces of SystemMonitor that hold logic:

- **The alert engine** (`AlertManager`, `alerts.py`). It compares a metrics
  snapshot with the alert settings. It emits at most one alert per category
  (CPU, Memory, Disk, in that order). Each category has its own 60-second
  cooldown. The engine keeps a history of at most 50 alerts and drops the
  oldest first. It can also render an alert as a display line.
- **The nested settings store** (`Config`, `config.py`). It reads and writes
  with dotted key paths (`get`, `set`). It merges a loaded file over built-in
  defaults (`_deep_update`). It gives access to the `monitor`, `display` and
  `alerts` sections.

Files:

- `wrappers.dfy`: `Option` and `Result`.
- `configuration.dfy`: module `Configuration`. It holds the JSON-like `Value`
  tree and Python truthiness. It models `split('.')` (`Split`, proved inverse
  to `Join`), the read path (`Lookup`), the write path (`SetPath`), the
  recursive merge (`DeepUpdate`) and the defaults. The class `Config` holds
  the settings tree as a field that `Set` replaces.
- `alerts.dfy`: module `Alerts`. The pure function `Evaluate` gives the outcome
  of one `check_alerts` call and the cooldown map it leaves behind. Lemmas
  state that outcome category by category. `KeepLast` is the history cap.
  `FormatAlert` is the rendering. The class `AlertManager` holds `history` and
  `lastAlertTime` as fields, and its methods are proved against `Evaluate` and
  `KeepLast`.

The clock and the date text are parameters: `now` (seconds, a `real`) and
`stamp`. Readings, thresholds and times are `real`, compared with strict `>`
as in the source.

On these points the model follows the code exactly:

- A threshold setting that is present but is not a number is not replaced by
  the default. Python raises `TypeError` when it compares the reading with it.
  The model returns `Err(TypeError)`. A cooldown key already set earlier in
  that call stays set. The history is not touched.
- An `alerts` section that is not a dict makes `.get` raise
  `AttributeError`. The model returns `Err(AttributeError)`.
- `enabled` is tested with Python truthiness, not as a strict boolean.
- A boolean threshold compares as 0 or 1.

## Model

| member | source | states |
|---|---|---|
| `Alerts.AlertManager.constructor` | alerts.py:12-16 | a new engine has an empty history, an empty cooldown map, and the given settings store |
| `Alerts.AlertManager.CheckAlerts` | alerts.py:18-83 | the result and the new cooldown map are those of `Evaluate` on the store's alerts section; on success the history becomes the newest 50 of old history followed by the new alerts, on an exception it is unchanged; the invariant (at most 50 well-formed records) is kept |
| `Alerts.AlertManager.EvaluateSection` | alerts.py:20-74 | the early exits and the three category checks return exactly `Evaluate`'s result and leave exactly its cooldown map |
| `Alerts.AlertManager.CheckCategory` | alerts.py:28-42 | one category check: raises when the threshold cannot be compared; otherwise appends an alert and sets the key to `now` exactly when the reading is strictly above the threshold and the gate passes, and otherwise changes nothing |
| `Alerts.AlertManager.RecordAlerts` | alerts.py:76-81 | appending each alert and popping the oldest when over 50 leaves the newest 50 of old history followed by the alerts, and keeps the invariant |
| `Alerts.AlertManager.ShouldSendAlert` | alerts.py:85-91 | the gate passes exactly when the key never fired or at least 60 seconds have passed since it did |
| `Alerts.AlertManager.GetAlertHistory` | alerts.py:93-95 | returns exactly the current history: at most 50 records, each well-formed |
| `Alerts.AlertManager.ClearAlertHistory` | alerts.py:97-100 | empties both the history and the cooldown map |
| `Alerts.Threshold` | alerts.py:30-31 | a configured number is the threshold compared; a configured bool compares as 1 or 0; an absent setting falls back to 80, 85 or 90; the comparison raises TypeError exactly when the setting is present and neither a number nor a bool |
| `Alerts.EvaluateResult` | alerts.py:21-74 | about `Evaluate`, the pure model of one `check_alerts` call (with `EvaluateCooldown` and `AlertsOfShape`): AttributeError when the alerts section is not a dict; no alerts when `enabled` is absent or falsy; TypeError when some threshold cannot be compared; otherwise exactly the alerts of the categories that fire, in CPU, Memory, Disk order |
| `Alerts.EvaluateCooldown` | alerts.py:26-74 | after a call, the key of each category that fired holds `now`; every other key is as before, present or absent, whether the call returned or raised (so nothing changes when alerting is off) |
| `Alerts.EmittedShape` | alerts.py:31-42 | a category contributes at most one record, and exactly one when it fires |
| `Alerts.ChunksOrdered` | alerts.py:28-74 | per-category chunks of at most one record, checked in CPU, Memory, Disk order, give strictly increasing categories |
| `Alerts.AlertsOfShape` | alerts.py:28-74 | the returned alerts number at most 3, at most one per category, in CPU, Memory, Disk order; category `c` is present exactly when it fires; every record has its category's fixed severity (warning, warning, critical), a value that is the reading, a threshold that is the one used, and the call's timestamp |
| `Alerts.EqualUsageNeverAlerts` | alerts.py:31 | a reading equal to its threshold emits nothing and leaves its cooldown key unchanged |
| `Alerts.EmptyCooldownFiresOnBreach` | alerts.py:97-100 | with the cooldown map cleared, every reached category whose reading is above its threshold fires |
| `Alerts.CpuCooldownScenario` | alerts.py:28-42 | CPU 95 over 80: the first call emits one warning, a second call at the same time emits nothing, 59.5 s later nothing, 60 s later one warning again |
| `Alerts.ConfiguredThresholdsScenario` | alerts.py:28-74 | configured thresholds replace the defaults: CPU 60 over a setting of 50 alerts, memory 87 under a setting of 90 does not although it is over the default 85, and a disk setting of `true` compares as 1 and alerts |
| `Alerts.DiskBreachIsCritical` | alerts.py:60-74 | disk 92 over 90 emits one critical alert |
| `Alerts.DefaultsAgree` | config.py:28-33 | the built-in fallback thresholds equal the default settings, and the default settings leave alerting off |
| `Alerts.KeepLastPush` | alerts.py:77-81 | one append followed by a pop when over 50 keeps the newest 50 |
| `Alerts.KeepLastCompose` | alerts.py:76-81 | capping between calls loses nothing: after any sequence of calls the history is the newest 50 alerts ever emitted |
| `Alerts.FormatAlert` | alerts.py:102-122 | the marker is the siren exactly for type `critical`, the warning sign exactly for `warning`, and the information sign for any other type; the line carries the timestamp, category name and message |
| `Alerts.EngineAlertMarker` | alerts.py:110-118 | every alert the engine creates renders with a siren if it is about the disk and a warning sign otherwise |
| `Configuration.Split` | config.py:69 | splitting on dots always gives at least one segment |
| `Configuration.SplitSegmentsHaveNoDot` | config.py:69 | no segment contains a dot |
| `Configuration.JoinSplit` | config.py:69 | joining the segments with dots gives back the path |
| `Configuration.SplitJoin` | config.py:81 | splitting the dot-join of dot-free segments gives back the segments |
| `Configuration.LookupAppend` | config.py:72-75 | following a path in two parts is following the first part, then the second from where it led |
| `Configuration.SetPath` | config.py:79-91 | on success the top level gains exactly the path's first key; a failure is always TypeError and needs an intermediate key |
| `Configuration.SetPathSucceedsIff` | config.py:84-88 | `set` raises exactly when an existing intermediate value on the path is not a dict |
| `Configuration.SetThenLookup` | config.py:79-91 | after a successful `set`, looking up the same path yields the new value |
| `Configuration.SetPathFrame` | config.py:84-91 | a successful `set` leaves every path that branches off the written one unchanged |
| `Configuration.SetPathExtension` | config.py:91 | after a successful `set`, paths extending the written one continue inside the new value |
| `Configuration.SetPathIntermediates` | config.py:85-88 | after a successful `set`, each proper prefix of the path holds a dict: the existing one or a new empty one, plus the next key |
| `Configuration.DeepUpdate` | config.py:93-99 | the merged key set is the union of both key sets, and keys only in the base keep their values |
| `Configuration.UntouchedIsAbsent` | config.py:95-99 | a path the update does not reach is absent from the update |
| `Configuration.DeepUpdateKeepsUntouched` | config.py:95-99 | every path the update does not reach keeps its value from the base, at any depth |
| `Configuration.DeepUpdateOverrides` | config.py:96-99 | a value the update holds at a path is in the result, unless both sides hold dicts there |
| `Configuration.DeepUpdateMergesDicts` | config.py:96-97 | where both sides hold dicts at a path, the result there is their recursive merge, whose keys are the union |
| `Configuration.DeepUpdateSelf` | config.py:93-99 | merging a tree into itself changes nothing |
| `Configuration.DeepUpdateIdempotent` | config.py:93-99 | merging the same update twice equals merging it once |
| `Configuration.MergeKeepsDefaults` | config.py:43-46 | merging a loaded file over the defaults keeps every default setting, unless the file replaces a whole section with a non-dict |
| `Configuration.Config.constructor` | config.py:37-54 | the settings are the loaded file merged over the defaults, or the defaults when there is no readable file |
| `Configuration.Config.Get` | config.py:67-77 | the loop returns the value reached by following every segment, and the default when a segment is missing or an intermediate value is not a dict |
| `Configuration.Config.Set` | config.py:79-91 | the settings become `SetPath`'s result; on TypeError they are unchanged and the error is reported |
| `Configuration.Config.MonitorConfig` | config.py:106-108 | the `monitor` section agrees with `get("monitor", {})` |
| `Configuration.Config.DisplayConfig` | config.py:110-112 | the `display` section agrees with `get("display", {})` |
| `Configuration.Config.AlertsConfig` | config.py:114-116 | the `alerts` section agrees with `get("alerts", {})` |

## Left out

- File handling in `load_config`, `save_config` and `reset_to_default` (config.py:37-65, 101-104) is left out: file existence, JSON reading and writing, and the printed warnings. The constructor takes the parsed file as a parameter (`None` for a missing or unreadable file) and models only the merge over the defaults.
- A loaded file whose top level is not an object makes `_deep_update` raise `AttributeError` in the source. The constructor takes only an object, so this case is not modelled.
- `load_config` merges into a shallow copy of `default_config`, so the source mutates the nested default dicts in place. The model uses value semantics and does not reproduce that aliasing. Merging into shared nested dicts in place is also not modelled.
- Python dict insertion order is not modelled: dicts are unordered maps.
- `time.time()` and `datetime.now().strftime(...)` are parameters. The source reads the date once per alert; the model uses one `stamp` for the whole call.
- The message text is kept as its parts. Float formatting (`{disk_usage:.1f}`) is not modelled.
- ANSI colour codes and emoji are not modelled as strings: the three markers are an enumeration.
- Alerts.AlertManager.GetAlertHistory: the source returns a shallow copy of the list, so the alert dicts in it are the very objects kept in the history, and a caller that changes one changes the history. The same holds for the alerts `check_alerts` returns (alerts.py:78, 83). The model hands out values and does not capture this aliasing.
- Configuration.Config.Get: the source returns live references into the settings tree (config.py:74-75), so a caller can change the settings through a returned dict; the model returns values. The same holds for Configuration.Config.MonitorConfig, Configuration.Config.DisplayConfig and Configuration.Config.AlertsConfig (config.py:108, 112, 116).
- Configuration.Config.Get: the Python default argument `default=None` is not modelled; the caller always passes the default, and `Null` stands for `None`.
- Alerts.Threshold: readings and thresholds are `real`, which has no NaN or infinities. Python's `json.load` accepts `NaN` and `Infinity`, and a NaN threshold never alerts; the model cannot express those settings.
- A boolean threshold is recorded in the alert as 1 or 0, where the source keeps `True` or `False`.
- The snapshot is a record with the three readings the engine uses. A snapshot missing a field, which makes the source raise `KeyError`, cannot be expressed.
- `system_info.py` (psutil and platform calls, floating-point rounding) and `monitor.py` (a print-and-sleep loop) are not part of this model.
