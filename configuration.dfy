/**
 * The nested settings store: a JSON-like tree of dicts, read and written with
 * dotted key paths ("alerts.cpu_threshold"), and merged over built-in defaults.
 */
module Configuration {
  import opened Wrappers

  /** A JSON value: Python's None, bool, int/float, str, list and dict. */
  datatype Value =
    | Null
    | Bool(b: bool)
    | Num(n: real)
    | Str(s: string)
    | Arr(items: seq<Value>)
    | Obj(fields: map<string, Value>)

  /** The Python exceptions the modelled code lets escape. */
  datatype Failure = AttributeError | TypeError

  /** Python truthiness, the test behind `not x`. */
  predicate Truthy(v: Value) {
    match v
    case Null => false
    case Bool(b) => b
    case Num(n) => n != 0.0
    case Str(s) => s != ""
    case Arr(items) => items != []
    case Obj(fields) => fields != map[]
  }

  /** Python's `d.get(key, default)`. */
  function DictGet(d: map<string, Value>, key: string, default: Value): Value {
    if key in d then d[key] else default
  }

  // ---------------------------------------------------------------------------
  // Dotted paths: `key_path.split('.')`
  // ---------------------------------------------------------------------------

  predicate NoDot(segment: string) {
    '.' !in segment
  }

  /** The segments of `s` between dots, as `s.split('.')` gives them; an empty
      string and adjacent dots yield empty segments, so there is always one. */
  function Split(s: string): (segments: seq<string>)
    ensures |segments| >= 1
    decreases |s|
  {
    if s == [] then [""]
    else
      var rest := Split(s[1..]);
      if s[0] == '.' then [""] + rest
      else [[s[0]] + rest[0]] + rest[1..]
  }

  /** `'.'.join(segments)`, the inverse of Split. */
  function Join(segments: seq<string>): string
    requires |segments| >= 1
  {
    if |segments| == 1 then segments[0]
    else segments[0] + "." + Join(segments[1..])
  }

  lemma {:induction false} SplitSegmentsHaveNoDot(s: string)
    ensures forall i :: 0 <= i < |Split(s)| ==> NoDot(Split(s)[i])
    decreases |s|
  {
    if s != [] {
      SplitSegmentsHaveNoDot(s[1..]);
    }
  }

  lemma {:induction false} JoinSplit(s: string)
    ensures Join(Split(s)) == s
    decreases |s|
  {
    if s != [] {
      var rest := Split(s[1..]);
      JoinSplit(s[1..]);
      if s[0] == '.' {
        assert Split(s) == [""] + rest;
        assert ([""] + rest)[1..] == rest;
      } else {
        var head := [s[0]] + rest[0];
        assert Split(s) == [head] + rest[1..];
        if |rest| == 1 {
          assert s == [s[0]] + s[1..];
        } else {
          assert ([head] + rest[1..])[1..] == rest[1..];
          assert Join(rest) == rest[0] + "." + Join(rest[1..]);
          assert s == [s[0]] + s[1..];
        }
      }
    }
  }

  /** Splitting a dot-free prefix glued to `t` extends the first segment of `t`. */
  lemma {:induction false} SplitDotFreePrefix(a: string, t: string)
    requires NoDot(a)
    ensures Split(a + t) == [a + Split(t)[0]] + Split(t)[1..]
    decreases |a|
  {
    if a != [] {
      SplitDotFreePrefix(a[1..], t);
      assert (a + t)[1..] == a[1..] + t;
      assert (a + t)[0] == a[0];
      assert [a[0]] + (a[1..] + Split(t)[0]) == a + Split(t)[0];
    } else {
      assert a + t == t;
      assert a + Split(t)[0] == Split(t)[0];
      assert Split(t) == [Split(t)[0]] + Split(t)[1..];
    }
  }

  lemma {:induction false} SplitJoin(segments: seq<string>)
    requires |segments| >= 1
    requires forall i :: 0 <= i < |segments| ==> NoDot(segments[i])
    ensures Split(Join(segments)) == segments
    decreases |segments|
  {
    var a := segments[0];
    if |segments| == 1 {
      SplitDotFreePrefix(a, "");
      assert a + "" == a;
    } else {
      var t := Join(segments[1..]);
      SplitJoin(segments[1..]);
      assert Split("." + t) == [""] + Split(t) by {
        assert ("." + t)[1..] == t;
      }
      SplitDotFreePrefix(a, "." + t);
      assert a + "." + t == a + ("." + t);
      assert a + "" == a;
    }
  }

  // ---------------------------------------------------------------------------
  // Reading: `Config.get`
  // ---------------------------------------------------------------------------

  /** The value reached from `v` by indexing with each key in turn; None when a
      key is missing or an intermediate value is not a dict. */
  function Lookup(v: Value, keys: seq<string>): Option<Value>
    decreases |keys|
  {
    if keys == [] then Some(v)
    else if v.Obj? && keys[0] in v.fields then Lookup(v.fields[keys[0]], keys[1..])
    else None
  }

  /** What `get` returns: the value found, or the caller's default. */
  function Resolve(root: map<string, Value>, keys: seq<string>, default: Value): Value {
    match Lookup(Obj(root), keys)
    case Some(x) => x
    case None => default
  }

  /** Following `a + b` is following `a`, then `b` from where `a` led. */
  lemma {:induction false} LookupAppend(v: Value, a: seq<string>, b: seq<string>)
    ensures Lookup(v, a + b) == match Lookup(v, a) case Some(x) => Lookup(x, b) case None => None
    decreases |a|
  {
    if a == [] {
      assert a + b == b;
    } else {
      assert (a + b)[0] == a[0];
      assert (a + b)[1..] == a[1..] + b;
      if v.Obj? && a[0] in v.fields {
        LookupAppend(v.fields[a[0]], a[1..], b);
      }
    }
  }

  // ---------------------------------------------------------------------------
  // Writing: `Config.set`
  // ---------------------------------------------------------------------------

  /** `set` on the tree `m` along `keys`: walking down, a missing key gets a
      fresh empty dict and an existing non-dict raises TypeError (before anything
      is written); the last key is bound to `v`. */
  function SetPath(m: map<string, Value>, keys: seq<string>, v: Value): (r: Result<map<string, Value>, Failure>)
    requires |keys| >= 1
    ensures r.Ok? ==> r.value.Keys == m.Keys + {keys[0]}
    ensures r.Err? ==> r.error == TypeError && |keys| >= 2
    decreases |keys|
  {
    var k := keys[0];
    if |keys| == 1 then Ok(m[k := v])
    else
      var child := if k in m then m[k] else Obj(map[]);
      if !child.Obj? then Err(TypeError)
      else
        match SetPath(child.fields, keys[1..], v)
        case Ok(f) => Ok(m[k := Obj(f)])
        case Err(e) => Err(e)
  }

  /** Every proper prefix of `keys` reaches either nothing or a dict. */
  ghost predicate PathWritable(m: map<string, Value>, keys: seq<string>) {
    forall j :: 1 <= j < |keys| ==>
      Lookup(Obj(m), keys[..j]) == None || Lookup(Obj(m), keys[..j]).value.Obj?
  }

  lemma PrefixOfCons(keys: seq<string>, j: nat)
    requires 1 <= j <= |keys|
    ensures keys[..j] == [keys[0]] + keys[1..][..j - 1]
  {
  }

  /** `set` raises exactly when an existing intermediate on the path is not a dict. */
  lemma {:induction false} SetPathSucceedsIff(m: map<string, Value>, keys: seq<string>, v: Value)
    requires |keys| >= 1
    ensures SetPath(m, keys, v).Ok? <==> PathWritable(m, keys)
    decreases |keys|
  {
    if |keys| > 1 {
      var k, rest := keys[0], keys[1..];
      var child := if k in m then m[k] else Obj(map[]);
      PrefixOfCons(keys, 1);
      assert Lookup(Obj(m), keys[..1]) == if k in m then Some(m[k]) else None;
      if child.Obj? {
        SetPathSucceedsIff(child.fields, rest, v);
        forall j | 2 <= j < |keys|
          ensures Lookup(Obj(m), keys[..j]) == (if k in m then Lookup(child, rest[..j - 1]) else None)
        {
          PrefixOfCons(keys, j);
        }
        if k !in m {
          forall j | 1 <= j < |rest|
            ensures Lookup(Obj(child.fields), rest[..j]) == None
          {
            assert rest[..j][0] in child.fields ==> false;
          }
        } else {
          if PathWritable(m, keys) {
            forall j | 1 <= j < |rest|
              ensures Lookup(Obj(child.fields), rest[..j]) == None || Lookup(Obj(child.fields), rest[..j]).value.Obj?
            {
              assert Lookup(Obj(m), keys[..j + 1]) == Lookup(child, rest[..j]);
            }
          }
          if PathWritable(child.fields, rest) {
            forall j | 1 <= j < |keys|
              ensures Lookup(Obj(m), keys[..j]) == None || Lookup(Obj(m), keys[..j]).value.Obj?
            {
              if j >= 2 {
                assert Lookup(Obj(m), keys[..j]) == Lookup(child, rest[..j - 1]);
              }
            }
          }
        }
      } else {
        assert !PathWritable(m, keys);
      }
    }
  }

  /** After a successful `set`, `get` along the same path yields the new value. */
  lemma {:induction false} SetThenLookup(m: map<string, Value>, keys: seq<string>, v: Value)
    requires |keys| >= 1 && SetPath(m, keys, v).Ok?
    ensures Lookup(Obj(SetPath(m, keys, v).value), keys) == Some(v)
    decreases |keys|
  {
    if |keys| > 1 {
      var k := keys[0];
      var child := if k in m then m[k] else Obj(map[]);
      SetThenLookup(child.fields, keys[1..], v);
    }
  }

  /** A successful `set` leaves every path that branches off `keys` (at index `i`) as it was. */
  lemma {:induction false} SetPathFrame(m: map<string, Value>, keys: seq<string>, v: Value, q: seq<string>, i: nat)
    requires |keys| >= 1 && SetPath(m, keys, v).Ok?
    requires i < |q| && i < |keys| && q[i] != keys[i]
    ensures Lookup(Obj(SetPath(m, keys, v).value), q) == Lookup(Obj(m), q)
    decreases |keys|
  {
    var k := keys[0];
    var m' := SetPath(m, keys, v).value;
    if i > 0 {
      var child := if k in m then m[k] else Obj(map[]);
      var f' := SetPath(child.fields, keys[1..], v).value;
      assert m'[k] == Obj(f');
      SetPathFrame(child.fields, keys[1..], v, q[1..], i - 1);
      if k !in m {
        assert Lookup(Obj(child.fields), q[1..]) == None;
      }
    }
  }

  /** After a successful `set`, paths extending `keys` continue inside the new value. */
  lemma SetPathExtension(m: map<string, Value>, keys: seq<string>, v: Value, rest: seq<string>)
    requires |keys| >= 1 && SetPath(m, keys, v).Ok?
    ensures Lookup(Obj(SetPath(m, keys, v).value), keys + rest) == Lookup(v, rest)
  {
    LookupAppend(Obj(SetPath(m, keys, v).value), keys, rest);
    SetThenLookup(m, keys, v);
  }

  /** After a successful `set`, each proper prefix of the path holds a dict: the
      one that was there, or one created empty, now also holding the next key. */
  lemma {:induction false} SetPathIntermediates(m: map<string, Value>, keys: seq<string>, v: Value, j: nat)
    requires 1 <= j < |keys| && SetPath(m, keys, v).Ok?
    ensures var before := Lookup(Obj(m), keys[..j]);
            var after := Lookup(Obj(SetPath(m, keys, v).value), keys[..j]);
            && after.Some? && after.value.Obj?
            && after.value.fields.Keys
               == (if before.Some? && before.value.Obj? then before.value.fields.Keys else {}) + {keys[j]}
    decreases |keys|
  {
    var k, rest := keys[0], keys[1..];
    var child := if k in m then m[k] else Obj(map[]);
    var f' := SetPath(child.fields, rest, v).value;
    var m' := SetPath(m, keys, v).value;
    assert m'[k] == Obj(f');
    PrefixOfCons(keys, j);
    if j > 1 {
      SetPathIntermediates(child.fields, rest, v, j - 1);
      assert rest[j - 1] == keys[j];
      if k !in m {
        assert Lookup(Obj(child.fields), rest[..j - 1]) == None;
      }
    }
  }

  // ---------------------------------------------------------------------------
  // Merging: `Config._deep_update`
  // ---------------------------------------------------------------------------

  /** `_deep_update(base, upd)`: where both sides hold a dict the result holds
      their merge; otherwise a key of `upd` overwrites and a key only in `base`
      stays. */
  function DeepUpdate(base: map<string, Value>, upd: map<string, Value>): (r: map<string, Value>)
    ensures r.Keys == base.Keys + upd.Keys
    ensures forall k :: k in base && k !in upd ==> r[k] == base[k]
    decreases Obj(upd)
  {
    map k | k in base.Keys + upd.Keys ::
      if k !in upd then base[k]
      else if k in base && base[k].Obj? && upd[k].Obj? then Obj(DeepUpdate(base[k].fields, upd[k].fields))
      else upd[k]
  }

  /** `upd` does not reach the path `keys`: along it `upd` holds dicts until a key is missing. */
  predicate Untouched(upd: map<string, Value>, keys: seq<string>)
    decreases |keys|
  {
    |keys| > 0 && (keys[0] !in upd || (upd[keys[0]].Obj? && Untouched(upd[keys[0]].fields, keys[1..])))
  }

  lemma {:induction false} UntouchedIsAbsent(upd: map<string, Value>, keys: seq<string>)
    requires Untouched(upd, keys)
    ensures Lookup(Obj(upd), keys) == None
    decreases |keys|
  {
    if keys[0] in upd {
      UntouchedIsAbsent(upd[keys[0]].fields, keys[1..]);
    }
  }

  /** Whatever `upd` does not reach keeps its value from `base`. */
  lemma {:induction false} DeepUpdateKeepsUntouched(base: map<string, Value>, upd: map<string, Value>, keys: seq<string>)
    requires Untouched(upd, keys)
    ensures Lookup(Obj(DeepUpdate(base, upd)), keys) == Lookup(Obj(base), keys)
    decreases |keys|
  {
    var k, rest := keys[0], keys[1..];
    var r := DeepUpdate(base, upd);
    if k in upd {
      var u := upd[k].fields;
      if k in base && base[k].Obj? {
        assert r[k] == Obj(DeepUpdate(base[k].fields, u));
        DeepUpdateKeepsUntouched(base[k].fields, u, rest);
      } else {
        assert r[k] == upd[k];
        UntouchedIsAbsent(u, rest);
      }
    }
  }

  /** A value `upd` holds at a path is in the result, unless both sides hold dicts there. */
  lemma {:induction false} DeepUpdateOverrides(base: map<string, Value>, upd: map<string, Value>, keys: seq<string>, x: Value)
    requires Lookup(Obj(upd), keys) == Some(x)
    requires !(x.Obj? && Lookup(Obj(base), keys).Some? && Lookup(Obj(base), keys).value.Obj?)
    ensures Lookup(Obj(DeepUpdate(base, upd)), keys) == Some(x)
    decreases |keys|
  {
    var k, rest := keys[0], keys[1..];
    var r := DeepUpdate(base, upd);
    if k in base && base[k].Obj? && upd[k].Obj? {
      assert r[k] == Obj(DeepUpdate(base[k].fields, upd[k].fields));
      DeepUpdateOverrides(base[k].fields, upd[k].fields, rest, x);
    } else {
      assert r[k] == upd[k];
    }
  }

  /** Where both sides hold a dict at a path, the result holds their merge; so at
      every such level the keys are the union of both sides' keys. */
  lemma {:induction false} DeepUpdateMergesDicts(base: map<string, Value>, upd: map<string, Value>, keys: seq<string>,
                                                b: map<string, Value>, u: map<string, Value>)
    requires Lookup(Obj(base), keys) == Some(Obj(b))
    requires Lookup(Obj(upd), keys) == Some(Obj(u))
    ensures Lookup(Obj(DeepUpdate(base, upd)), keys) == Some(Obj(DeepUpdate(b, u)))
    ensures DeepUpdate(b, u).Keys == b.Keys + u.Keys
    decreases |keys|
  {
    if keys != [] {
      var k, rest := keys[0], keys[1..];
      assert DeepUpdate(base, upd)[k] == Obj(DeepUpdate(base[k].fields, upd[k].fields));
      DeepUpdateMergesDicts(base[k].fields, upd[k].fields, rest, b, u);
    }
  }

  lemma {:induction false} DeepUpdateSelf(u: map<string, Value>)
    ensures DeepUpdate(u, u) == u
    decreases Obj(u)
  {
    var r := DeepUpdate(u, u);
    forall k | k in u ensures r[k] == u[k] {
      if u[k].Obj? {
        DeepUpdateSelf(u[k].fields);
      }
    }
  }

  /** Merging the same update twice is the same as merging it once. */
  lemma {:induction false} DeepUpdateIdempotent(base: map<string, Value>, upd: map<string, Value>)
    ensures DeepUpdate(DeepUpdate(base, upd), upd) == DeepUpdate(base, upd)
    decreases Obj(upd)
  {
    var r := DeepUpdate(base, upd);
    var r2 := DeepUpdate(r, upd);
    forall k | k in r ensures r2[k] == r[k] {
      if k in upd && upd[k].Obj? {
        var u := upd[k].fields;
        if k in base && base[k].Obj? {
          assert r[k] == Obj(DeepUpdate(base[k].fields, u));
          DeepUpdateIdempotent(base[k].fields, u);
        } else {
          assert r[k] == upd[k];
          DeepUpdateSelf(u);
        }
      }
    }
  }

  // ---------------------------------------------------------------------------
  // The store
  // ---------------------------------------------------------------------------

  /** The built-in defaults every loaded file is merged over. */
  function DefaultConfig(): map<string, Value> {
    map[
      "monitor" := Obj(map[
        "update_interval" := Num(3.0),
        "auto_clear_screen" := Bool(true),
        "show_system_info" := Bool(true),
        "show_cpu_info" := Bool(true),
        "show_memory_info" := Bool(true),
        "show_disk_info" := Bool(true)
      ]),
      "display" := Obj(map[
        "use_colors" := Bool(true),
        "use_emojis" := Bool(true),
        "precision" := Num(2.0)
      ]),
      "alerts" := Obj(map[
        "enabled" := Bool(false),
        "cpu_threshold" := Num(80.0),
        "memory_threshold" := Num(85.0),
        "disk_threshold" := Num(90.0)
      ])
    ]
  }

  /** The tree a Config starts from: the file's contents merged over the
      defaults, or the defaults when there is no readable file. */
  function Initial(loaded: Option<map<string, Value>>): map<string, Value> {
    match loaded
    case Some(file) => DeepUpdate(DefaultConfig(), file)
    case None => DefaultConfig()
  }

  /** Merging a file over the defaults keeps every default setting, as long as
      the file does not replace a whole section with something that is not a dict. */
  lemma MergeKeepsDefaults(loaded: Option<map<string, Value>>, section: string, key: string)
    requires section in DefaultConfig() && key in DefaultConfig()[section].fields
    requires loaded.Some? && section in loaded.value ==> loaded.value[section].Obj?
    ensures section in Initial(loaded) && Initial(loaded)[section].Obj?
    ensures key in Initial(loaded)[section].fields
  {
    if loaded.Some? && section in loaded.value {
      DeepUpdateMergesDicts(DefaultConfig(), loaded.value, [section],
                            DefaultConfig()[section].fields, loaded.value[section].fields);
    }
  }

  /** The settings manager: its tree is replaced as a whole by `Set`. */
  class Config {
    /** The current settings tree. */
    var root: map<string, Value>

    /** `loaded` is the parsed file, or None when the file is missing or unreadable. */
    constructor (loaded: Option<map<string, Value>>)
      ensures root == Initial(loaded)
    {
      root := Initial(loaded);
    }

    /** The value at the dotted `path`, or `default` when a key is missing or an
        intermediate value is not a dict. */
    method Get(path: string, default: Value) returns (r: Value)
      ensures Lookup(Obj(root), Split(path)).Some? ==> r == Lookup(Obj(root), Split(path)).value
      ensures Lookup(Obj(root), Split(path)) == None ==> r == default
    {
      var keys := Split(path);
      var value := Obj(root);
      var i := 0;
      while i < |keys|
        invariant 0 <= i <= |keys|
        invariant Lookup(Obj(root), keys) == Lookup(value, keys[i..])
      {
        if value.Obj? && keys[i] in value.fields {
          value := value.fields[keys[i]];
          i := i + 1;
        } else {
          return default;
        }
      }
      return value;
    }

    /** Binds `v` at the dotted `path`, creating missing dicts on the way; reports
        TypeError, changing nothing, when an existing intermediate is not a dict. */
    method Set(path: string, v: Value) returns (err: Option<Failure>)
      modifies this
      ensures var out := SetPath(old(root), Split(path), v);
              && (out.Ok? ==> err == None && root == out.value)
              && (out.Err? ==> err == Some(out.error) && root == old(root))
    {
      match SetPath(root, Split(path), v)
      case Ok(updated) =>
        root := updated;
        err := None;
      case Err(e) =>
        err := Some(e);
    }

    /** The "monitor" section, or an empty dict: `get("monitor", {})`. */
    function MonitorConfig(): (r: Value)
      reads this
      ensures r == Resolve(root, ["monitor"], Obj(map[]))
    {
      if "monitor" in root then root["monitor"] else Obj(map[])
    }

    /** The "display" section, or an empty dict: `get("display", {})`. */
    function DisplayConfig(): (r: Value)
      reads this
      ensures r == Resolve(root, ["display"], Obj(map[]))
    {
      if "display" in root then root["display"] else Obj(map[])
    }

    /** The "alerts" section, or an empty dict: `get("alerts", {})`. */
    function AlertsConfig(): (r: Value)
      reads this
      ensures r == Resolve(root, ["alerts"], Obj(map[]))
    {
      if "alerts" in root then root["alerts"] else Obj(map[])
    }
  }
}
